/**
 * The write path of `add_file_to_list` and of the mass lister's `main`:
 * each input line is normalised to a DID or a handle to resolve, and each
 * accepted line becomes one list-item record.
 */
module Entries {
  import opened Wrappers
  import opened Text
  import opened Pagination
  import opened Atproto

  /** An accepted input line: a DID used as it is, or a handle the resolver must turn into one. */
  datatype Entry = DidEntry(did: Did) | HandleEntry(handle: Handle) {
    function Name(): string {
      match this
      case DidEntry(d) => d
      case HandleEntry(h) => h
    }
  }

  /**
   * One input line: skipped when blank, else right-stripped, stripped of at
   * most one leading '@', and taken as a DID when it starts with "did:".
   */
  function Normalize(line: string): Option<Entry> {
    if IsBlank(line) then None
    else
      var s := RStrip(line);
      var s := if "@" <= s then s[1..] else s;
      if "did:" <= s then Some(DidEntry(s)) else Some(HandleEntry(s))
  }

  /** What `Normalize` keeps of a line, and how it tells a DID from a handle. */
  lemma NormalizeMeaning(line: string)
    ensures Normalize(line).None? <==> Strip(line) == []
    ensures Normalize(line).Some? ==>
      var s, name := RStrip(line), Normalize(line).value.Name();
      && (if "@" <= s then s == "@" + name else s == name)
      && (Normalize(line).value.DidEntry? <==> "did:" <= name)
  {
    StripEmptyIffBlank(line);
    if !IsBlank(line) {
      NormalizeName(line);
    }
  }

  lemma NormalizeName(line: string)
    requires !IsBlank(line)
    ensures Normalize(line).Some?
    ensures var s, name := RStrip(line), Normalize(line).value.Name();
      && (if "@" <= s then s == "@" + name else s == name)
      && (Normalize(line).value.DidEntry? <==> "did:" <= name)
  {
    var s := RStrip(line);
    if "@" <= s {
      assert s == "@" + s[1..];
    }
  }

  /** The normalised entries of the non-blank lines, in file order, duplicates kept. */
  function Accepted(lines: seq<string>): seq<Entry> {
    if lines == [] then []
    else
      match Normalize(lines[0])
      case None => Accepted(lines[1..])
      case Some(e) => [e] + Accepted(lines[1..])
  }

  /** The handles among the entries, in order. */
  function Handles(entries: seq<Entry>): seq<Handle> {
    if entries == [] then []
    else if entries[0].HandleEntry? then [entries[0].handle] + Handles(entries[1..])
    else Handles(entries[1..])
  }

  /**
   * What a run over some lines does: the handles it asks the resolver for,
   * the subjects it creates list items for, both in order, and the error
   * that stopped it, if any.
   */
  datatype Outcome = Outcome(lookups: seq<Handle>, subjects: seq<Did>, err: Option<Error>)

  const Nothing := Outcome([], [], None)

  /** Running `first` and, unless it stopped, then `next`. */
  function Then(first: Outcome, next: Outcome): Outcome {
    if first.err.Some? then first
    else Outcome(first.lookups + next.lookups, first.subjects + next.subjects, next.err)
  }

  /** One accepted entry: a create for a DID, or a lookup followed by a create or by Unresolved. */
  function EntryOutcome(e: Entry, dids: map<Handle, Did>): Outcome {
    match e
    case DidEntry(d) => Outcome([], [d], None)
    case HandleEntry(h) =>
      if h in dids then Outcome([h], [dids[h]], None) else Outcome([h], [], Some(Unresolved(h)))
  }

  /** One line: nothing when it is blank, else what its entry does. */
  function LineOutcome(line: string, dids: map<Handle, Did>): Outcome {
    match Normalize(line)
    case None => Nothing
    case Some(e) => EntryOutcome(e, dids)
  }

  /** The entries in order, stopping at the first handle the resolver does not know. */
  function EntriesOutcome(entries: seq<Entry>, dids: map<Handle, Did>): Outcome {
    if entries == [] then Nothing else Then(EntryOutcome(entries[0], dids), EntriesOutcome(entries[1..], dids))
  }

  /** The lines in order, stopping at the first handle the resolver does not know. */
  function AddOutcome(lines: seq<string>, dids: map<Handle, Did>): Outcome {
    if lines == [] then Nothing else Then(LineOutcome(lines[0], dids), AddOutcome(lines[1..], dids))
  }

  /** The create requests for the subjects, in order, all in `repo` and on `list`. */
  function Creates(repo: Handle, list: Uri, subjects: seq<Did>): (calls: seq<Call>)
    ensures |calls| == |subjects|
  {
    if subjects == [] then [] else [CreateListItemCall(repo, list, subjects[0])] + Creates(repo, list, subjects[1..])
  }

  /** Request i creates the item for subject i. */
  lemma {:induction false} CreatesEach(repo: Handle, list: Uri, subjects: seq<Did>, i: nat)
    requires i < |subjects|
    ensures Creates(repo, list, subjects)[i] == CreateListItemCall(repo, list, subjects[i])
  {
    if i > 0 {
      CreatesEach(repo, list, subjects[1..], i - 1);
    }
  }

  lemma {:induction false} CreatesAppend(repo: Handle, list: Uri, a: seq<Did>, b: seq<Did>)
    ensures Creates(repo, list, a + b) == Creates(repo, list, a) + Creates(repo, list, b)
  {
    if a == [] {
      assert a + b == b;
    } else {
      assert (a + b)[0] == a[0] && (a + b)[1..] == a[1..] + b;
      CreatesAppend(repo, list, a[1..], b);
    }
  }

  /** The create requests of a run that goes on with one more step. */
  lemma CreatesThen(repo: Handle, list: Uri, calls0: seq<Call>, done: Outcome, step: Outcome)
    requires done.err.None?
    ensures calls0 + Creates(repo, list, done.subjects) + Creates(repo, list, step.subjects)
         == calls0 + Creates(repo, list, Then(done, step).subjects)
  {
    CreatesAppend(repo, list, done.subjects, step.subjects);
  }

  lemma ThenAssociative(x: Outcome, y: Outcome, z: Outcome)
    ensures Then(Then(x, y), z) == Then(x, Then(y, z))
  {
    if x.err.None? && y.err.None? {
      assert (x.lookups + y.lookups) + z.lookups == x.lookups + (y.lookups + z.lookups);
      assert (x.subjects + y.subjects) + z.subjects == x.subjects + (y.subjects + z.subjects);
    }
  }

  /** The lines of two files one after the other run as the first, then the second. */
  lemma {:induction false} AddOutcomeAppend(a: seq<string>, b: seq<string>, dids: map<Handle, Did>)
    ensures AddOutcome(a + b, dids) == Then(AddOutcome(a, dids), AddOutcome(b, dids))
    decreases |a|
  {
    if a == [] {
      assert a + b == b;
      var o := AddOutcome(b, dids);
      assert Then(Nothing, o) == Outcome([] + o.lookups, [] + o.subjects, o.err);
      assert [] + o.lookups == o.lookups && [] + o.subjects == o.subjects;
    } else {
      assert (a + b)[0] == a[0] && (a + b)[1..] == a[1..] + b;
      AddOutcomeAppend(a[1..], b, dids);
      ThenAssociative(LineOutcome(a[0], dids), AddOutcome(a[1..], dids), AddOutcome(b, dids));
    }
  }

  /** The run over the first i + 1 lines is the run over the first i, then line i. */
  lemma {:induction false} AddOutcomeNext(lines: seq<string>, i: nat, dids: map<Handle, Did>)
    requires i < |lines|
    ensures AddOutcome(lines[..i + 1], dids) == Then(AddOutcome(lines[..i], dids), LineOutcome(lines[i], dids))
  {
    assert lines[..i + 1] == lines[..i] + [lines[i]];
    AddOutcomeAppend(lines[..i], [lines[i]], dids);
    var o := LineOutcome(lines[i], dids);
    assert AddOutcome([lines[i]], dids) == Then(o, Nothing);
    assert o.lookups + [] == o.lookups && o.subjects + [] == o.subjects;
  }

  /** Once a run has stopped, further lines change nothing. */
  lemma {:induction false} AddOutcomeStopped(a: seq<string>, b: seq<string>, dids: map<Handle, Did>)
    requires AddOutcome(a, dids).err.Some?
    ensures AddOutcome(a + b, dids) == AddOutcome(a, dids)
  {
    AddOutcomeAppend(a, b, dids);
  }

  /** Once the first i + 1 lines have failed, the rest of the file is never read. */
  lemma {:induction false} StoppedAt(lines: seq<string>, i: nat, dids: map<Handle, Did>)
    requires i < |lines| && AddOutcome(lines[..i + 1], dids).err.Some?
    ensures AddOutcome(lines, dids) == AddOutcome(lines[..i + 1], dids)
  {
    assert lines[..i + 1] + lines[i + 1..] == lines;
    AddOutcomeStopped(lines[..i + 1], lines[i + 1..], dids);
  }

  lemma ThenNothing(o: Outcome)
    ensures Then(Nothing, o) == o
  {
    assert [] + o.lookups == o.lookups && [] + o.subjects == o.subjects;
  }

  /** What each line does on its own, in file order. */
  function Steps(lines: seq<string>, dids: map<Handle, Did>): (steps: seq<Outcome>)
    ensures |steps| == |lines|
  {
    if lines == [] then [] else [LineOutcome(lines[0], dids)] + Steps(lines[1..], dids)
  }

  /** Steps run one after the other, stopping at the first that fails. */
  function Chain(steps: seq<Outcome>): Outcome {
    if steps == [] then Nothing else Then(steps[0], Chain(steps[1..]))
  }

  lemma {:induction false} StepsAt(lines: seq<string>, dids: map<Handle, Did>, i: nat)
    requires i < |lines|
    ensures Steps(lines, dids)[i] == LineOutcome(lines[i], dids)
  {
    if i > 0 {
      StepsAt(lines[1..], dids, i - 1);
    }
  }

  /** A run over lines is the chain of what each line does. */
  lemma {:induction false} AddOutcomeChain(lines: seq<string>, dids: map<Handle, Did>)
    ensures AddOutcome(lines, dids) == Chain(Steps(lines, dids))
  {
    if lines != [] {
      AddOutcomeChain(lines[1..], dids);
      assert Steps(lines, dids)[1..] == Steps(lines[1..], dids);
    }
  }

  lemma {:induction false} ChainAppend(a: seq<Outcome>, b: seq<Outcome>)
    ensures Chain(a + b) == Then(Chain(a), Chain(b))
  {
    if a == [] {
      assert a + b == b;
      ThenNothing(Chain(b));
    } else {
      assert (a + b)[0] == a[0] && (a + b)[1..] == a[1..] + b;
      ChainAppend(a[1..], b);
      ThenAssociative(a[0], Chain(a[1..]), Chain(b));
    }
  }

  lemma ChainNext(steps: seq<Outcome>, i: nat)
    requires i < |steps|
    ensures Chain(steps[..i + 1]) == Then(Chain(steps[..i]), steps[i])
  {
    assert steps[..i + 1] == steps[..i] + [steps[i]];
    ChainAppend(steps[..i], [steps[i]]);
    var o := steps[i];
    assert Chain([o]) == Then(o, Nothing);
    assert o.lookups + [] == o.lookups && o.subjects + [] == o.subjects;
  }

  lemma ChainStopped(steps: seq<Outcome>, i: nat)
    requires i < |steps| && Chain(steps[..i + 1]).err.Some?
    ensures Chain(steps) == Chain(steps[..i + 1])
  {
    assert steps[..i + 1] + steps[i + 1..] == steps;
    ChainAppend(steps[..i + 1], steps[i + 1..]);
  }

  /** Blank lines do nothing: a run over lines is the run over their accepted entries. */
  lemma {:induction false} AddOutcomeIsEntries(lines: seq<string>, dids: map<Handle, Did>)
    ensures AddOutcome(lines, dids) == EntriesOutcome(Accepted(lines), dids)
    decreases |lines|
  {
    if lines != [] {
      AddOutcomeIsEntries(lines[1..], dids);
      var rest := Accepted(lines[1..]);
      match Normalize(lines[0])
      case None =>
        ThenNothing(AddOutcome(lines[1..], dids));
      case Some(e) =>
        assert ([e] + rest)[0] == e && ([e] + rest)[1..] == rest;
    }
  }

  /** A run over entries fails exactly when some handle among them is unknown to the resolver. */
  lemma {:induction false} EntriesOutcomeFails(es: seq<Entry>, dids: map<Handle, Did>)
    ensures EntriesOutcome(es, dids).err.None? <==> forall i :: 0 <= i < |es| && es[i].HandleEntry? ==> es[i].handle in dids
    decreases |es|
  {
    if es != [] {
      EntriesOutcomeFails(es[1..], dids);
      assert forall i :: 1 <= i < |es| ==> es[i] == es[1..][i - 1];
    }
  }

  /**
   * A run over entries that does not fail creates one record per entry, in
   * order, with the entry's DID or its handle's resolved DID, and asks the
   * resolver for exactly the handles among them.
   */
  lemma {:induction false} EntriesOutcomeCreates(es: seq<Entry>, dids: map<Handle, Did>)
    requires forall i :: 0 <= i < |es| && es[i].HandleEntry? ==> es[i].handle in dids
    ensures var o := EntriesOutcome(es, dids);
      && o.err.None?
      && |o.subjects| == |es|
      && (forall i :: 0 <= i < |es| ==> o.subjects[i] == if es[i].DidEntry? then es[i].did else dids[es[i].handle])
      && o.lookups == Handles(es)
    decreases |es|
  {
    if es != [] {
      assert forall i :: 1 <= i < |es| ==> es[i] == es[1..][i - 1];
      EntriesOutcomeCreates(es[1..], dids);
    }
  }

  /**
   * The run issues one create per accepted line, in file order, with the
   * line's DID or its handle's resolved DID; it asks the resolver exactly
   * for the handles, never for a DID line; and it fails exactly when some
   * accepted handle is unknown to the resolver.
   */
  lemma AddOutcomeFollowsEntries(lines: seq<string>, dids: map<Handle, Did>)
    ensures var o := AddOutcome(lines, dids); var es := Accepted(lines);
      && (o.err.None? <==> forall i :: 0 <= i < |es| && es[i].HandleEntry? ==> es[i].handle in dids)
      && (o.err.None? ==> |o.subjects| == |es|)
      && (o.err.None? ==> forall i :: 0 <= i < |es| ==>
            o.subjects[i] == if es[i].DidEntry? then es[i].did else dids[es[i].handle])
      && (o.err.None? ==> o.lookups == Handles(es))
  {
    AddOutcomeIsEntries(lines, dids);
    EntriesOutcomeFails(Accepted(lines), dids);
    if AddOutcome(lines, dids).err.None? {
      EntriesOutcomeCreates(Accepted(lines), dids);
    }
  }

  /** No deduplication: a file listed twice creates every record twice. */
  lemma {:induction false} AddOutcomeTwice(lines: seq<string>, dids: map<Handle, Did>)
    requires AddOutcome(lines, dids).err.None?
    ensures AddOutcome(lines + lines, dids).subjects == AddOutcome(lines, dids).subjects + AddOutcome(lines, dids).subjects
  {
    AddOutcomeAppend(lines, lines, dids);
  }

  /** A DID as the service writes it: starts with "did:" and holds no whitespace. */
  predicate PlainDid(d: string) {
    "did:" <= d && forall i :: 0 <= i < |d| ==> !IsSpace(d[i])
  }

  /** A line of a backup file is read back as the DID written on it. */
  lemma NormalizeDidLine(d: Did)
    requires PlainDid(d)
    ensures Normalize(d + "\n") == Some(DidEntry(d))
  {
    var line := d + "\n";
    assert !IsSpace(line[0]);
    assert RStrip(line) == d by {
      assert line[..|line| - 1] == d;
    }
    assert !("@" <= d) by {
      assert d[0] == 'd';
    }
  }

  /** Each DID on a line of its own. */
  function Terminated(ds: seq<Did>): seq<string> {
    if ds == [] then [] else [ds[0] + "\n"] + Terminated(ds[1..])
  }

  /** The lines of a backup file: one `did + '\n'` per item. */
  lemma {:induction false} LinesOfDump<T>(items: seq<T>, did: T -> Did)
    requires forall i :: 0 <= i < |items| ==> '\n' !in did(items[i])
    ensures Lines(Dump(items, did)) == Terminated(Dids(items, did))
    decreases |items|
  {
    if items != [] {
      LinesOfDump(items[1..], did);
      LinesAfterPiece(did(items[0]), Dump(items[1..], did));
    }
  }

  /** A run over one more line in front. */
  lemma AddOutcomeCons(line: string, rest: seq<string>, dids: map<Handle, Did>)
    ensures AddOutcome([line] + rest, dids) == Then(LineOutcome(line, dids), AddOutcome(rest, dids))
  {
    assert ([line] + rest)[0] == line && ([line] + rest)[1..] == rest;
  }

  /** Lines that each hold one plain DID create those DIDs, in order, with no lookup. */
  lemma {:induction false} AddDidLines(ds: seq<Did>, dids: map<Handle, Did>)
    requires forall i :: 0 <= i < |ds| ==> PlainDid(ds[i])
    ensures AddOutcome(Terminated(ds), dids) == Outcome([], ds, None)
    decreases |ds|
  {
    if ds != [] {
      assert PlainDid(ds[0]);
      NormalizeDidLine(ds[0]);
      AddDidLines(ds[1..], dids);
      AddOutcomeCons(ds[0] + "\n", Terminated(ds[1..]), dids);
      assert [ds[0]] + ds[1..] == ds;
    }
  }

  /**
   * Backing a list up and adding the backup file to a list round-trips: the
   * same members are created, in the same order, without a resolver call.
   */
  lemma BackupThenAdd<T>(items: seq<T>, did: T -> Did, dids: map<Handle, Did>)
    requires forall i :: 0 <= i < |items| ==> PlainDid(did(items[i]))
    ensures AddOutcome(Lines(Dump(items, did)), dids) == Outcome([], Dids(items, did), None)
  {
    var ds := Dids(items, did);
    forall i | 0 <= i < |items| ensures '\n' !in did(items[i]) {
      var d := did(items[i]);
      assert PlainDid(d) && IsSpace('\n');
      assert forall j :: 0 <= j < |d| ==> d[j] != '\n';
    }
    LinesOfDump(items, did);
    AddDidLines(ds, dids);
  }
}
