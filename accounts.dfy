/** The signed-in user as the pages read it from the authentication context:
    profile fields, the role that decides what the user may see, and the
    saved shipping addresses. */
module Accounts {
  import opened Common

  const CustomerRole := "customer"
  const AdminRole := "admin"

  datatype SavedAddress = SavedAddress(
    fullName: string, street: string, city: string, state: string,
    zipCode: string, country: string, phone: string, isDefault: bool)

  datatype User = User(
    name: string, email: string, phone: string, role: string,
    addresses: seq<SavedAddress>)

  /** `user && user.role === 'customer'` */
  predicate IsCustomer(user: Option<User>)
  {
    user.Some? && user.value.role == CustomerRole
  }
}
