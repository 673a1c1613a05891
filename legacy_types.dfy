/** The older account record of the root package (types.go), with no credentials. */
module LegacyTypes {
  import opened Clock

  datatype Account = Account(
    id: int,
    firstName: string,
    lastName: string,
    number: int,
    balance: int,
    createdAt: Time)

  datatype CreateAccountRequest = CreateAccountRequest(firstName: string, lastName: string)

  const AccountNumberBound: nat := 100000

  /**
   * NewAccount(FirstName, LastName): always builds an account. The draw of
   * rand.IntN(100000) and the reading of time.Now() are parameters.
   */
  function NewAccount(firstName: string, lastName: string, draw: nat, now: Time): (a: Account)
    requires draw < AccountNumberBound
    ensures a.id == 0 && a.firstName == firstName && a.lastName == lastName
    ensures 0 <= a.number < AccountNumberBound && a.number == draw
    ensures a.balance == 0
    ensures a.createdAt.unixNano == now.unixNano && a.createdAt.loc == UTC
  {
    Account(0, firstName, lastName, draw, 0, InUTC(now))
  }
}
