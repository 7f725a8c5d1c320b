/** The records shared by the identity service and the client hook (`lib/auth/auth-types.ts`). */
module AuthTypes {
  import opened Wrappers

  datatype KycStatus = Pending | Approved | Rejected

  /** The verified identity the provider returns. */
  datatype GoogleUser = GoogleUser(
    id: string,
    email: string,
    name: string,
    picture: Option<string>,
    verifiedEmail: bool,
    kycStatus: Option<KycStatus>)

  /** The wallet summary a session may carry. */
  datatype SessionWallet = SessionWallet(id: string, address: string, isActive: bool)

  /** The claims of a session token. Times are milliseconds since the epoch. The declared type
      requires `user`, but the service never puts it into the tokens it issues, so it is optional
      here. */
  datatype AuthSession = AuthSession(
    userId: string,
    email: string,
    name: string,
    walletAddress: Option<string>,
    smartWalletId: Option<string>,
    createdAt: int,
    expiresAt: int,
    user: Option<GoogleUser>,
    wallet: Option<SessionWallet>)

  /** The wallet handle the client keeps in its state; the wallet service that supplies it is not
      part of this model, so only its identity is kept. */
  datatype SmartWallet = SmartWallet(id: string, address: string)
}
