/** The Session record as the auth flows use it: owner, user agent, creation
    and expiry instants. The schema file itself is not part of this model;
    the default lifetime of a new session is a configuration value. */
module SessionModel {
  import opened Base
  import opened Time

  datatype Session = Session(userId: Id, userAgent: Option<string>, createdAt: int, expiresAt: int)

  /** `SessionModel.create({userId, userAgent})` at time `now`. */
  function NewSession(userId: Id, userAgent: Option<string>, now: int, lifetime: int): (s: Session)
    requires lifetime > 0
    ensures s.userId == userId && s.userAgent == userAgent && s.createdAt == now
    ensures s.expiresAt == now + lifetime
    ensures IsAlive(s, now)
  {
    Session(userId, userAgent, now, now + lifetime)
  }

  /** A session is alive while its expiry lies in the future. */
  predicate IsAlive(s: Session, now: int)
  {
    s.expiresAt > now
  }

  /** The sliding-renewal test: fewer than 24 hours left. */
  predicate NeedsRenewal(s: Session, now: int)
  {
    s.expiresAt - now < ONE_DAY_MS
  }

  /** The session after `session.expiresAt = thirtyDaysFromNow()`. */
  function Renewed(s: Session, now: int): Session
  {
    s.(expiresAt := now + THIRTY_DAYS_MS)
  }

  /** Renewal only ever moves an expiry that needed it further out, keeps the
      session alive, and leaves it outside the renewal window at that instant,
      so an immediate second refresh does not renew again. */
  lemma RenewalExtends(s: Session, now: int)
    requires NeedsRenewal(s, now)
    ensures Renewed(s, now).expiresAt > s.expiresAt
    ensures IsAlive(Renewed(s, now), now)
    ensures !NeedsRenewal(Renewed(s, now), now)
    ensures Renewed(s, now).(expiresAt := s.expiresAt) == s
  {
  }
}
