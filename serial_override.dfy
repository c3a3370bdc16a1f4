/** Manual serial-number overrides
    (packages/nexus-sequencing-management/src/Actions/OverrideSerialNumberAction.php):
    the ordered checks of the action and the append to the serial-number log. */
module SerialOverride {
  import opened Common

  /** A sequence is known by its tenant and name. */
  datatype SequenceKey = SequenceKey(tenantId: string, sequenceName: string)

  /** The authenticated user that caused an entry: its class and its id. */
  datatype Causer = Causer(causerType: string, causerId: string)

  /** Who runs the action: nobody, or a user together with the gate's answer
      to `override-sequence-number`. */
  datatype Caller = Guest | Authenticated(user: Causer, mayOverride: bool)

  datatype Metadata = Metadata(isOverride: bool, reason: string)

  /** A row of the serial-number log. */
  datatype LogEntry = LogEntry(
    tenantId: string,
    sequenceName: string,
    generatedNumber: string,
    causer: Option<Causer>,
    metadata: Metadata,
    createdAt: Instant)

  datatype OverrideError =
    | AuthorizationFailed
    | SequenceNotFound(tenantId: string, sequenceName: string)
    | DuplicateNumber(number: string, sequenceName: string)

  /** Some entry already records `number` for this tenant and sequence. */
  predicate NumberLogged(log: seq<LogEntry>, tenantId: string, sequenceName: string, number: string)
  {
    exists i :: 0 <= i < |log| && Matches(log[i], tenantId, sequenceName, number)
  }

  predicate Matches(e: LogEntry, tenantId: string, sequenceName: string, number: string)
  {
    e.tenantId == tenantId && e.sequenceName == sequenceName && e.generatedNumber == number
  }

  /** The checks of `handle`, in their order: the gate (only for an
      authenticated caller), the sequence lookup, the duplicate lookup. */
  function Check(log: seq<LogEntry>, sequences: set<SequenceKey>, caller: Caller,
                 tenantId: string, sequenceName: string, number: string): (r: Option<OverrideError>)
    ensures r == Some(AuthorizationFailed) <==> caller.Authenticated? && !caller.mayOverride
    ensures r.None? <==>
      (!(caller.Authenticated? && !caller.mayOverride) &&
       SequenceKey(tenantId, sequenceName) in sequences && !NumberLogged(log, tenantId, sequenceName, number))
  {
    if caller.Authenticated? && !caller.mayOverride then Some(AuthorizationFailed)
    else if SequenceKey(tenantId, sequenceName) !in sequences then Some(SequenceNotFound(tenantId, sequenceName))
    else if NumberLogged(log, tenantId, sequenceName, number) then Some(DuplicateNumber(number, sequenceName))
    else None
  }

  /** The entry a successful override appends; the causer is null for a guest. */
  function OverrideEntry(caller: Caller, tenantId: string, sequenceName: string, number: string,
                         reason: string, now: Instant): (e: LogEntry)
    ensures caller.Guest? ==> e.causer == None
    ensures caller.Authenticated? ==> e.causer == Some(caller.user)
    ensures Matches(e, tenantId, sequenceName, number) && e.metadata == Metadata(true, reason)
  {
    var causer := if caller.Authenticated? then Some(caller.user) else None;
    LogEntry(tenantId, sequenceName, number, causer, Metadata(true, reason), now)
  }

  /** The log after `handle`: one entry more on success, unchanged on error. */
  function Override(log: seq<LogEntry>, sequences: set<SequenceKey>, caller: Caller,
                    tenantId: string, sequenceName: string, number: string,
                    reason: string, now: Instant): (r: seq<LogEntry>)
    ensures Check(log, sequences, caller, tenantId, sequenceName, number).Some? ==> r == log
    ensures Check(log, sequences, caller, tenantId, sequenceName, number).None? ==>
      r == log + [OverrideEntry(caller, tenantId, sequenceName, number, reason, now)] &&
      Matches(r[|log|], tenantId, sequenceName, number)
  {
    if Check(log, sequences, caller, tenantId, sequenceName, number).Some? then log
    else log + [OverrideEntry(caller, tenantId, sequenceName, number, reason, now)]
  }

  /** No two entries record the same number for the same tenant and sequence. */
  predicate NoDuplicates(log: seq<LogEntry>)
  {
    forall i, j :: 0 <= i < j < |log| ==>
      !Matches(log[j], log[i].tenantId, log[i].sequenceName, log[i].generatedNumber)
  }

  // ----- properties

  /** An unknown sequence is reported before any duplicate, and writes nothing. */
  lemma UnknownSequenceFirst(log: seq<LogEntry>, sequences: set<SequenceKey>, caller: Caller,
                             tenantId: string, sequenceName: string, number: string)
    requires !(caller.Authenticated? && !caller.mayOverride)
    requires SequenceKey(tenantId, sequenceName) !in sequences
    ensures Check(log, sequences, caller, tenantId, sequenceName, number) == Some(SequenceNotFound(tenantId, sequenceName))
  {
  }

  /** For a known sequence, the action fails as a duplicate exactly when the
      number is already logged for that tenant and sequence. */
  lemma DuplicateExactly(log: seq<LogEntry>, sequences: set<SequenceKey>, caller: Caller,
                         tenantId: string, sequenceName: string, number: string)
    requires !(caller.Authenticated? && !caller.mayOverride)
    requires SequenceKey(tenantId, sequenceName) in sequences
    ensures Check(log, sequences, caller, tenantId, sequenceName, number) == Some(DuplicateNumber(number, sequenceName))
        <==> NumberLogged(log, tenantId, sequenceName, number)
  {
  }

  /** The override never introduces a duplicate. */
  lemma {:induction false} OverridePreservesNoDuplicates(log: seq<LogEntry>, sequences: set<SequenceKey>, caller: Caller,
                                       tenantId: string, sequenceName: string, number: string,
                                       reason: string, now: Instant)
    requires NoDuplicates(log)
    ensures NoDuplicates(Override(log, sequences, caller, tenantId, sequenceName, number, reason, now))
  {
    var r := Override(log, sequences, caller, tenantId, sequenceName, number, reason, now);
    if Check(log, sequences, caller, tenantId, sequenceName, number).None? {
      forall i, j | 0 <= i < j < |r|
        ensures !Matches(r[j], r[i].tenantId, r[i].sequenceName, r[i].generatedNumber)
      {
        if j == |log| {
          assert r[i] == log[i];
          assert !Matches(log[i], tenantId, sequenceName, number);
        } else {
          assert r[i] == log[i] && r[j] == log[j];
        }
      }
    }
  }

  /** Repeating a successful override fails as a duplicate and writes nothing. */
  lemma RepeatIsDuplicate(log: seq<LogEntry>, sequences: set<SequenceKey>, caller: Caller,
                          tenantId: string, sequenceName: string, number: string,
                          reason: string, now: Instant, reason': string, now': Instant)
    requires Check(log, sequences, caller, tenantId, sequenceName, number).None?
    ensures var log' := Override(log, sequences, caller, tenantId, sequenceName, number, reason, now);
      Check(log', sequences, caller, tenantId, sequenceName, number) == Some(DuplicateNumber(number, sequenceName)) &&
      Override(log', sequences, caller, tenantId, sequenceName, number, reason', now') == log'
  {
    var log' := Override(log, sequences, caller, tenantId, sequenceName, number, reason, now);
    assert Matches(log'[|log|], tenantId, sequenceName, number);
  }

  /** The duplicate check is scoped: a number logged under another tenant or
      another sequence does not block it. */
  lemma DuplicateCheckIsScoped(log: seq<LogEntry>, tenantId: string, sequenceName: string, number: string)
    requires forall i :: 0 <= i < |log| ==> log[i].tenantId != tenantId || log[i].sequenceName != sequenceName
    ensures !NumberLogged(log, tenantId, sequenceName, number)
  {
  }

  /** The serial-number log table, which the action only appends to. */
  class SerialNumberLog {
    var entries: seq<LogEntry>

    constructor (entries: seq<LogEntry>)
      ensures this.entries == entries
    {
      this.entries := entries;
    }

    /** `handle`: checks in order, then appends the override entry. */
    method Handle(sequences: set<SequenceKey>, caller: Caller, tenantId: string, sequenceName: string,
                  number: string, reason: string, now: Instant) returns (err: Option<OverrideError>)
      modifies this
      ensures err == Check(old(entries), sequences, caller, tenantId, sequenceName, number)
      ensures entries == Override(old(entries), sequences, caller, tenantId, sequenceName, number, reason, now)
    {
      if caller.Authenticated? && !caller.mayOverride {
        return Some(AuthorizationFailed);
      }
      if SequenceKey(tenantId, sequenceName) !in sequences {
        return Some(SequenceNotFound(tenantId, sequenceName));
      }
      var found := FindLogged(tenantId, sequenceName, number);
      if found {
        return Some(DuplicateNumber(number, sequenceName));
      }
      var causer: Option<Causer> := None;
      if caller.Authenticated? {
        causer := Some(caller.user);
      }
      entries := entries + [LogEntry(tenantId, sequenceName, number, causer, Metadata(true, reason), now)];
      err := None;
    }

    /** The `where(...)->first()` lookup of an existing entry. */
    method FindLogged(tenantId: string, sequenceName: string, number: string) returns (found: bool)
      ensures found == NumberLogged(entries, tenantId, sequenceName, number)
    {
      var i := 0;
      while i < |entries|
        invariant 0 <= i <= |entries|
        invariant forall k :: 0 <= k < i ==> !Matches(entries[k], tenantId, sequenceName, number)
      {
        if Matches(entries[i], tenantId, sequenceName, number) {
          return true;
        }
        i := i + 1;
      }
      return false;
    }
  }
}
