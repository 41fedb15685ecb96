/** The account entity. */
module Users {

  /** The two roles an account can have. */
  datatype Role = USER | ADMIN

  /** An account. `id` is drawn from the store's user counter when the
      account is constructed and has no setter. */
  datatype User = User(id: int, email: string, password: string, name: string, role: Role)
}
