/** Newsletter signups: a table of rows with store-assigned ids and a unique
    email column, and the signup that looks for an existing row, inserts a
    normalised one, and rolls the session back on every failure. */
module Newsletter {
  import opened Wrappers
  import opened Text

  datatype Row = Row(id: nat, firstName: string, lastName: string, email: string)

  /** The table as a value: its rows in insertion order and the id the next
      inserted row receives. */
  datatype Table = Table(rows: seq<Row>, nextId: nat)

  /** The table's invariant: ids grow with insertion order and stay below
      nextId, so they are distinct; emails are distinct, as the UNIQUE
      constraint on the email column demands. */
  predicate Consistent(t: Table) {
    && (forall i, j :: 0 <= i < j < |t.rows| ==> t.rows[i].id < t.rows[j].id)
    && (forall i :: 0 <= i < |t.rows| ==> t.rows[i].id < t.nextId)
    && (forall i, j :: 0 <= i < j < |t.rows| ==> t.rows[i].email != t.rows[j].email)
  }

  predicate HasEmail(rows: seq<Row>, email: string) {
    exists i :: 0 <= i < |rows| && rows[i].email == email
  }

  /** A signup request after schema validation. */
  datatype SignupIn = SignupIn(firstName: string, lastName: string, email: string)

  /** email.strip().lower() */
  function NormalizeEmail(email: string): string {
    Lower(Strip(email))
  }

  /** The row stored for a signup: names stripped, email stripped and lowered. */
  function NewRow(p: SignupIn, id: nat): Row {
    Row(id, Strip(p.firstName), Strip(p.lastName), NormalizeEmail(p.email))
  }

  const NotConfigured: Error := HttpError(500, "Database not configured")
  const AlreadySignedUp: Error := HttpError(400, "Email already signed up")
  const SaveFailed: Error := HttpError(500, "Failed to save signup")

  /** What a signup answers and the table it leaves behind. */
  datatype Outcome = Outcome(result: Result<nat>, table: Table)

  /** Where the store fails, if anywhere, inside the handler's try block: the
      pre-check query, the commit (for any reason but the unique constraint,
      which the table itself decides), or the refresh after the commit. */
  datatype Fault = NoFault | QueryFails | CommitFails | RefreshFails

  /** newsletter_signup on a table value. The pre-check compares the email as
      submitted; the unique constraint compares the normalised email that is
      stored. A failure before the commit rolls back to the table as it was;
      a failing refresh comes after the commit, so the row stays stored while
      the answer is the same 500. */
  function SignupOn(t: Table, configured: bool, p: SignupIn, fault: Fault): Outcome {
    if !configured then Outcome(Err(NotConfigured), t)
    else if fault == QueryFails then Outcome(Err(SaveFailed), t)
    else if HasEmail(t.rows, p.email) then Outcome(Err(AlreadySignedUp), t)
    else if fault == CommitFails || HasEmail(t.rows, NormalizeEmail(p.email)) then Outcome(Err(SaveFailed), t)
    else
      var stored := Table(t.rows + [NewRow(p, t.nextId)], t.nextId + 1);
      if fault == RefreshFails then Outcome(Err(SaveFailed), stored)
      else Outcome(Ok(t.nextId), stored)
  }

  /** True when the signup committed a row, whatever it answered. */
  predicate Committed(t: Table, configured: bool, p: SignupIn, fault: Fault) {
    && configured && fault != QueryFails && fault != CommitFails
    && !HasEmail(t.rows, p.email) && !HasEmail(t.rows, NormalizeEmail(p.email))
  }

  // ---------------------------------------------------------------- properties

  /** Signup keeps the table's invariant: the new id exceeds every earlier
      one, and the unique constraint keeps emails distinct. */
  lemma SignupKeepsConsistent(t: Table, configured: bool, p: SignupIn, fault: Fault)
    requires Consistent(t)
    ensures Consistent(SignupOn(t, configured, p, fault).table)
  {
    var o := SignupOn(t, configured, p, fault);
    if Committed(t, configured, p, fault) {
      var rows := o.table.rows;
      assert rows[|t.rows|] == NewRow(p, t.nextId);
      forall i, j | 0 <= i < j < |rows| ensures rows[i].email != rows[j].email {
        if j == |t.rows| {
          assert rows[i] == t.rows[i];
        }
      }
    }
  }

  /** A committed signup adds exactly one row, after the existing rows,
      holding the stripped names and the stripped, lowered email, with an id
      that no earlier row has; when the answer is a success, it is that id. */
  lemma SignupSuccess(t: Table, configured: bool, p: SignupIn, fault: Fault)
    requires Consistent(t)
    requires Committed(t, configured, p, fault)
    ensures var o := SignupOn(t, configured, p, fault);
      && o.table.rows == t.rows + [Row(t.nextId, Strip(p.firstName), Strip(p.lastName), Lower(Strip(p.email)))]
      && (forall i :: 0 <= i < |t.rows| ==> t.rows[i].id != t.nextId)
      && o.table.nextId > t.nextId
      && (o.result.Ok? ==> o.result.value == t.nextId)
  {
  }

  /** A signup succeeds exactly when the store is configured, neither the
      submitted nor the normalised email is stored, and no step of the store
      fails. */
  lemma SignupSucceedsIff(t: Table, configured: bool, p: SignupIn, fault: Fault)
    ensures SignupOn(t, configured, p, fault).result.Ok?
        <==> Committed(t, configured, p, fault) && fault == NoFault
  {
  }

  /** The table changes exactly when a row was committed; every failure
      before the commit rolls back to the table as it was. */
  lemma FailureLeavesTable(t: Table, configured: bool, p: SignupIn, fault: Fault)
    ensures SignupOn(t, configured, p, fault).table == t <==> !Committed(t, configured, p, fault)
  {
  }

  /** A refresh that fails after the commit answers 500 "Failed to save
      signup" although the row is stored. */
  lemma RefreshFailureKeepsRow(t: Table, p: SignupIn)
    requires Committed(t, true, p, RefreshFails)
    ensures SignupOn(t, true, p, RefreshFails)
         == Outcome(Err(SaveFailed), Table(t.rows + [NewRow(p, t.nextId)], t.nextId + 1))
  {
  }

  /** A failing pre-check query answers 500, even for an email that is
      stored exactly as submitted. */
  lemma QueryFailureIs500(t: Table, p: SignupIn)
    ensures SignupOn(t, true, p, QueryFails) == Outcome(Err(SaveFailed), t)
  {
  }

  /** An unconfigured store answers 500 before the table is looked at. */
  lemma UnconfiguredStore(t: Table, p: SignupIn, fault: Fault)
    ensures SignupOn(t, false, p, fault) == Outcome(Err(NotConfigured), t)
  {
  }

  /** The email exactly as submitted is already stored and the query works:
      400. */
  lemma ExactDuplicateRejected(t: Table, p: SignupIn, fault: Fault)
    requires HasEmail(t.rows, p.email) && fault != QueryFails
    ensures SignupOn(t, true, p, fault) == Outcome(Err(AlreadySignedUp), t)
  {
  }

  /** A variant that only normalisation makes equal to a stored email passes
      the pre-check and is stopped by the unique constraint: 500, not 400,
      and no row is added, wherever else the store might fail. */
  lemma VariantHitsConstraint(t: Table, p: SignupIn, fault: Fault)
    requires !HasEmail(t.rows, p.email) && HasEmail(t.rows, NormalizeEmail(p.email))
    ensures SignupOn(t, true, p, fault) == Outcome(Err(SaveFailed), t)
  {
  }

  /** Whatever the variant, no second row with a stored normalised email is
      ever created. */
  lemma NoDuplicateRow(t: Table, configured: bool, p: SignupIn, fault: Fault)
    requires HasEmail(t.rows, NormalizeEmail(p.email))
    ensures var o := SignupOn(t, configured, p, fault);
      o.result.Err? && o.table == t
  {
  }

  // ---------------------------------------------------------------- the email as validated

  /** The form EmailStr gives the email before the handler sees it: no
      surrounding whitespace, and no capital letter after the last "@" (the
      domain is lowered). */
  predicate Validated(e: string) {
    && Strip(e) == e
    && forall j :: 0 <= j < |e| && IsUpper(e[j]) ==> exists i :: j < i < |e| && e[i] == '@'
  }

  /** For a validated email, normalisation changes the email only when its
      local part holds a capital letter: a whitespace or domain-case variant
      never reaches the unique constraint, only a local-part case variant
      does. */
  lemma OnlyLocalCaseVariants(e: string)
    requires Validated(e) && NormalizeEmail(e) != e
    ensures NormalizeEmail(e) == Lower(e)
    ensures exists j, i :: 0 <= j < i < |e| && IsUpper(e[j]) && e[i] == '@'
  {
    var j :| 0 <= j < |e| && Lower(e)[j] != e[j];
    assert IsUpper(e[j]);
  }

  /** The case variant at work: with "ann@x.io" stored, signing up as
      "Ann@x.io" fails with 500 "Failed to save signup". */
  lemma CaseVariantExample()
    ensures var t := Table([Row(1, "Ann", "Lee", "ann@x.io")], 2);
      SignupOn(t, true, SignupIn("Ann", "Lee", "Ann@x.io"), NoFault)
        == Outcome(Err(HttpError(500, "Failed to save signup")), t)
  {
    NormalizeExample();
    var t := Table([Row(1, "Ann", "Lee", "ann@x.io")], 2);
    assert t.rows[0].email != "Ann@x.io";
    VariantHitsConstraint(t, SignupIn("Ann", "Lee", "Ann@x.io"), NoFault);
  }

  lemma NormalizeExample()
    ensures NormalizeEmail("Ann@x.io") == "ann@x.io"
  {
    StripExample();
    assert Lower("Ann@x.io") == "ann@x.io";
  }

  lemma StripExample()
    ensures Strip("Ann@x.io") == "Ann@x.io"
  {
    var e := "Ann@x.io";
    assert e[0] == 'A' && e[|e| - 1] == 'o';
    assert Surrounds(e, 0, e);
    StripUnique(e, 0, e);
  }

  // ---------------------------------------------------------------- the store

  /** The newsletter_signups table behind a session. configured is false when
      no engine could be created (SessionLocal is None). */
  class SignupStore {
    const configured: bool
    var rows: seq<Row>
    var nextId: nat

    function State(): Table
      reads this
    {
      Table(rows, nextId)
    }

    predicate Valid()
      reads this
    {
      Consistent(State())
    }

    /** A store over an empty table whose first id is 1. */
    constructor (configured: bool)
      ensures this.configured == configured
      ensures Valid() && State() == Table([], 1)
    {
      this.configured := configured;
      rows := [];
      nextId := 1;
    }

    /** query(...).filter(email == e).first(): some stored row with exactly
      this email, or None when there is none. */
    method FindByEmail(email: string) returns (found: Option<Row>)
      ensures found.Some? ==> found.value in rows && found.value.email == email
      ensures found.None? <==> !HasEmail(rows, email)
    {
      var i := 0;
      while i < |rows|
        invariant 0 <= i <= |rows|
        invariant forall j :: 0 <= j < i ==> rows[j].email != email
      {
        if rows[i].email == email {
          return Some(rows[i]);
        }
        i := i + 1;
      }
      return None;
    }

    /** session.add(row) and commit(): the row is stored with the next id, or
      the commit fails on the unique email constraint or a store failure and
      is rolled back. */
    method Insert(firstName: string, lastName: string, email: string, commitFails: bool)
      returns (id: Option<nat>)
      requires Valid()
      modifies this
      ensures Valid()
      ensures id.None? <==> commitFails || HasEmail(old(rows), email)
      ensures id.None? ==> State() == old(State())
      ensures id.Some? ==> id.value == old(nextId) && nextId == old(nextId) + 1
      ensures id.Some? ==> rows == old(rows) + [Row(old(nextId), firstName, lastName, email)]
    {
      var existing := FindByEmail(email);
      if commitFails || existing.Some? {
        return None;
      }
      ghost var before := State();
      rows := rows + [Row(nextId, firstName, lastName, email)];
      id := Some(nextId);
      nextId := nextId + 1;
      assert forall i :: 0 <= i < |before.rows| ==> rows[i] == before.rows[i];
    }

    /** newsletter_signup: the guard, the pre-check on the email as submitted,
      the insert of the normalised row, then the refresh; a fault anywhere in
      the try block answers 500 "Failed to save signup". */
    method Signup(p: SignupIn, fault: Fault) returns (r: Result<nat>)
      requires Valid()
      modifies this
      ensures Valid()
      ensures Outcome(r, State()) == SignupOn(old(State()), configured, p, fault)
    {
      if !configured {
        return Err(NotConfigured);
      }
      if fault == QueryFails {
        return Err(SaveFailed);
      }
      var existing := FindByEmail(p.email);
      if existing.Some? {
        return Err(AlreadySignedUp);
      }
      var id := Insert(Strip(p.firstName), Strip(p.lastName), NormalizeEmail(p.email), fault == CommitFails);
      if id.None? {
        return Err(SaveFailed);
      }
      if fault == RefreshFails {
        return Err(SaveFailed);
      }
      return Ok(id.value);
    }
  }
}
