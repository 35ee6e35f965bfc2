// One client session on the server: the native connection and two ordered
// lists, of (identifier, command) and (identifier, transaction).
module DatabaseConnections {
  import opened Wrappers
  import opened OrderedLists
  import opened NativeDriver

  class DatabaseConnection {
    const connection: NativeConnection
    var commands: seq<(string, NativeCommand)>
    var transactions: seq<(string, NativeTransaction)>

    constructor(connection: NativeConnection)
      ensures this.connection == connection && commands == [] && transactions == []
    {
      this.connection := connection;
      commands := [];
      transactions := [];
    }

    /// Identifiers are unique within each list.
    predicate Valid()
      reads this
    {
      UniqueNames(commands) && UniqueNames(transactions)
    }

    /// The command of the first entry with this identifier, or null.
    function GetCommand(commandIdentifier: string): (r: NativeCommand?)
      reads this
      ensures r == null <==> forall j :: 0 <= j < |commands| ==> commands[j].0 != commandIdentifier
      ensures r != null ==>
        exists i :: 0 <= i < |commands| && commands[i] == (commandIdentifier, r) && forall j :: 0 <= j < i ==> commands[j].0 != commandIdentifier
    {
      var i := FindIndex(commands, commandIdentifier);
      if i >= 0 then commands[i].1 else null
    }

    /// The transaction of the first entry with this identifier, or null.
    function GetTransaction(transactionIdentifier: string): (r: NativeTransaction?)
      reads this
      ensures r == null <==> forall j :: 0 <= j < |transactions| ==> transactions[j].0 != transactionIdentifier
      ensures r != null ==>
        exists i :: 0 <= i < |transactions| && transactions[i] == (transactionIdentifier, r) && forall j :: 0 <= j < i ==> transactions[j].0 != transactionIdentifier
    {
      var i := FindIndex(transactions, transactionIdentifier);
      if i >= 0 then transactions[i].1 else null
    }

    method AddCommand(commandIdentifier: string, command: NativeCommand)
      modifies this
      ensures commands == old(commands) + [(commandIdentifier, command)]
      ensures transactions == old(transactions)
      ensures GetCommand(commandIdentifier) != null
      ensures old(GetCommand(commandIdentifier)) == null ==> GetCommand(commandIdentifier) == command
      ensures old(Valid()) && old(GetCommand(commandIdentifier)) == null ==> Valid()
    {
      commands := commands + [(commandIdentifier, command)];
      assert commands[|commands| - 1] == (commandIdentifier, command);
    }

    method AddTransaction(transactionIdentifier: string, transaction: NativeTransaction)
      modifies this
      ensures transactions == old(transactions) + [(transactionIdentifier, transaction)]
      ensures commands == old(commands)
      ensures GetTransaction(transactionIdentifier) != null
      ensures old(GetTransaction(transactionIdentifier)) == null ==> GetTransaction(transactionIdentifier) == transaction
      ensures old(Valid()) && old(GetTransaction(transactionIdentifier)) == null ==> Valid()
    {
      transactions := transactions + [(transactionIdentifier, transaction)];
      assert transactions[|transactions| - 1] == (transactionIdentifier, transaction);
    }

    /// Removes the first command with this identifier; nothing happens for
    /// an unknown identifier.
    method DestroyCommand(commandIdentifier: string)
      modifies this
      ensures commands == RemoveFirst(old(commands), commandIdentifier)
      ensures old(GetCommand(commandIdentifier)) == null ==> commands == old(commands)
      ensures transactions == old(transactions)
      ensures old(Valid()) ==> Valid() && GetCommand(commandIdentifier) == null
    {
      var i := FindIndex(commands, commandIdentifier);
      if i < 0 {
        return;
      }
      commands := RemoveAt(commands, i);
      RemovedNameIsGone(old(commands), i);
    }

    /// Commits the first transaction with this identifier, then removes it.
    /// A commit that throws returns its fault and leaves the entry in place.
    method CommitAndDestroy(driver: Driver, transactionIdentifier: string) returns (fault: Option<Fault>)
      modifies this
      ensures var i := FindIndex(old(transactions), transactionIdentifier);
        if i < 0 then fault.None? && transactions == old(transactions)
        else fault == driver.commitFault(old(transactions)[i].1) && transactions == (if fault.None? then RemoveAt(old(transactions), i) else old(transactions))
      ensures commands == old(commands)
      ensures old(Valid()) ==> Valid() && (fault.None? ==> GetTransaction(transactionIdentifier) == null)
    {
      var i := FindIndex(transactions, transactionIdentifier);
      if i < 0 {
        return None;
      }
      fault := driver.commitFault(transactions[i].1);
      if fault.Some? {
        return;
      }
      transactions := RemoveAt(transactions, i);
      RemovedNameIsGone(old(transactions), i);
    }

    /// Rolls back the first transaction with this identifier, then removes
    /// it; as CommitAndDestroy, with the native rollback.
    method RollbackAndDestroy(driver: Driver, transactionIdentifier: string) returns (fault: Option<Fault>)
      modifies this
      ensures var i := FindIndex(old(transactions), transactionIdentifier);
        if i < 0 then fault.None? && transactions == old(transactions)
        else fault == driver.rollbackFault(old(transactions)[i].1) && transactions == (if fault.None? then RemoveAt(old(transactions), i) else old(transactions))
      ensures commands == old(commands)
      ensures old(Valid()) ==> Valid() && (fault.None? ==> GetTransaction(transactionIdentifier) == null)
    {
      var i := FindIndex(transactions, transactionIdentifier);
      if i < 0 {
        return None;
      }
      fault := driver.rollbackFault(transactions[i].1);
      if fault.Some? {
        return;
      }
      transactions := RemoveAt(transactions, i);
      RemovedNameIsGone(old(transactions), i);
    }

    /// Removes the first transaction with this identifier without committing
    /// or rolling it back (the driver is not consulted).
    method Destroy(transactionIdentifier: string)
      modifies this
      ensures transactions == RemoveFirst(old(transactions), transactionIdentifier)
      ensures commands == old(commands)
      ensures old(Valid()) ==> Valid() && GetTransaction(transactionIdentifier) == null
    {
      var i := FindIndex(transactions, transactionIdentifier);
      if i < 0 {
        return;
      }
      transactions := RemoveAt(transactions, i);
      RemovedNameIsGone(old(transactions), i);
    }
  }

  /// Removing an entry from a list with unique names keeps the names unique
  /// and leaves no entry with the removed name.
  lemma RemovedNameIsGone<T>(s: seq<(string, T)>, i: int)
    requires 0 <= i < |s|
    ensures UniqueNames(s) ==> UniqueNames(RemoveAt(s, i)) && FindIndex(RemoveAt(s, i), s[i].0) < 0
  {
    var r := RemoveAt(s, i);
    if UniqueNames(s) {
      forall a, b | 0 <= a < b < |r| ensures r[a].0 != r[b].0 {
        var a', b' := if a < i then a else a + 1, if b < i then b else b + 1;
        assert r[a] == s[a'] && r[b] == s[b'];
      }
      forall j | 0 <= j < |r| ensures r[j].0 != s[i].0 {
        if j < i { assert r[j] == s[j]; } else { assert r[j] == s[j + 1]; }
      }
    }
  }
}
