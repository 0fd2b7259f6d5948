/** The running result of one cleanup pass. */
module Reports {
  import opened Configs
  import opened Objects

  predicate Fails(c: SuspensionCleanup) {
    c.failures != [] || c.unverified != []
  }

  function AppendNew(notes: seq<Note>, note: Note): seq<Note> {
    if note in notes then notes else notes + [note]
  }

  class Report {
    var pending: seq<Note>
    var failures: seq<Note>
    var unverified: seq<Note>
    /** The errors the pass returns joined. */
    var errors: seq<Note>

    /** The pass returns an error exactly when something failed or could not be verified. */
    ghost predicate Valid()
      reads this
    {
      errors == [] <==> failures == [] && unverified == []
    }

    /** Nothing to report so far. */
    predicate Clean()
      reads this
    {
      pending == [] && failures == [] && unverified == []
    }

    /** Unless an error was recorded, nothing was. */
    twostate predicate Untouched()
      reads this
    {
      errors == [] ==> old(errors) == [] && pending == old(pending)
    }

    constructor ()
      ensures Valid() && Clean()
    {
      pending, failures, unverified, errors := [], [], [], [];
    }

    method Append(notes: seq<Note>, note: Note) returns (all: seq<Note>)
      ensures all == AppendNew(notes, note)
    {
      for i := 0 to |notes|
        invariant note !in notes[..i]
      {
        if notes[i] == note {
          return notes;
        }
      }
      return notes + [note];
    }

    method RecordPending(what: Finding, about: Key)
      requires Valid()
      modifies this
      ensures Valid() && !Clean()
      ensures pending == AppendNew(old(pending), Note(what, about))
      ensures failures == old(failures) && unverified == old(unverified) && errors == old(errors)
    {
      pending := Append(pending, Note(what, about));
    }

    method RecordFailure(what: Finding, about: Key)
      requires Valid()
      modifies this
      ensures Valid() && !Clean()
      ensures failures == AppendNew(old(failures), Note(what, about)) && errors == old(errors) + [Note(what, about)]
      ensures pending == old(pending) && unverified == old(unverified)
    {
      failures := Append(failures, Note(what, about));
      errors := errors + [Note(what, about)];
    }

    method RecordUnverified(what: Finding, about: Key)
      requires Valid()
      modifies this
      ensures Valid() && !Clean()
      ensures unverified == AppendNew(old(unverified), Note(what, about)) && errors == old(errors) + [Note(what, about)]
      ensures pending == old(pending) && failures == old(failures)
    {
      errors := errors + [Note(what, about)];
      unverified := Append(unverified, Note(what, about));
    }

    function Cleanup(): SuspensionCleanup
      reads this
    {
      SuspensionCleanup(pending, failures, unverified)
    }
  }
}
