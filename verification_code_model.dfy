/** The VerificationCode record (backend/src/models/verificationCode.model.ts).
    The code's id is the code value itself; the table is keyed by it. */
module VerificationCodeModel {
  import opened Base

  /** The values of VericationCodeType. The source stores them as plain strings
      and compares them with equality, which is what this enumeration keeps. */
  datatype CodeType = EmailVerification | PasswordReset

  /** `userId`, `type`, `createdAt` and `expiredAt`, all required; there is no
      `updatedAt`, as the schema has no timestamps option. */
  datatype VerificationCode = VerificationCode(userId: Id, codeType: CodeType, createdAt: int, expiredAt: int)

  /** `VerificationCodeModel.create({userId, type, expiredAt})` at time `now`:
      `createdAt` takes its default, the creation time. The new code serves
      only the purpose it was created for, and only before `expiredAt`. */
  function NewCode(userId: Id, codeType: CodeType, expiredAt: int, now: int): (c: VerificationCode)
    ensures c.userId == userId && c.createdAt == now
    ensures forall wanted, at :: IsUsable(c, wanted, at) <==> wanted == codeType && at < expiredAt
  {
    VerificationCode(userId, codeType, now, expiredAt)
  }

  /** The filter `{type, expiredAt: {$gt: now}}` that both code-consuming flows use. */
  predicate IsUsable(c: VerificationCode, codeType: CodeType, now: int)
  {
    c.codeType == codeType && c.expiredAt > now
  }
}
