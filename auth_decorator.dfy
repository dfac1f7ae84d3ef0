/** `@require_admin`: the wrapped function runs only for the role "admin". */
module AuthDecorator {
  import opened Wrappers

  /** One call of the wrapper: the lines printed, whether `func` ran, and the value returned. */
  datatype Outcome = Outcome(printed: seq<string>, ran: bool, returned: Option<()>)

  const Denied := "Access denied: Admins only"

  /** `require_admin(func)(user_role)`, where `func` is described by the lines it prints. Any
      role other than "admin" prints the denial; "admin" runs `func`. Both paths return `None`,
      since the wrapper discards `func`'s result. */
  function RequireAdmin(func: string -> seq<string>, userRole: string): (r: Outcome)
    ensures r.ran <==> userRole == "admin"
    ensures r.ran ==> r.printed == func(userRole)
    ensures !r.ran ==> r.printed == [Denied]
    ensures r.returned == None
  {
    if userRole != "admin" then Outcome([Denied], false, None)
    else Outcome(func(userRole), true, None)
  }

  /** `access_tea_inventory(role)` prints one line. */
  function AccessTeaInventory(role: string): seq<string> {
    ["Accessing tea inventory as " + role]
  }

  /** The role "user" is denied and "admin" is let through. */
  lemma InventoryExample()
    ensures RequireAdmin(AccessTeaInventory, "user") == Outcome([Denied], false, None)
    ensures RequireAdmin(AccessTeaInventory, "admin") == Outcome(["Accessing tea inventory as admin"], true, None)
  {
    assert "Accessing tea inventory as " + "admin" == "Accessing tea inventory as admin";
  }
}
