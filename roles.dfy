/** The role names the pages compare against. */
module Roles {

  /** The administrator role, as the authentication context reports it. */
  const AdminRole: string := "admin"
}
