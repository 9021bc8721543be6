/**
  Command-line tokens in dub's grammar and the vocabulary used to state
  properties about them.

  A token is either a bare switch (`--force`) or a valued flag
  (`--build=release`). Its flag name is its text up to and including the
  first '=' (or all of it when it holds no '='), so the value of a valued
  flag may itself contain '=' without changing the flag it belongs to.
  A flag table lists flag names in the order an encoder emits them; the
  rank of a token is the position of its flag name in that table.

  The ordering and selection lemmas are stated over an arbitrary ranking
  function, so that they hold for every table at once.
*/
module Tokens {
  import opened Wrappers

  // ---------------------------------------------------------------------
  // Token builders: the three shapes the encoders emit

  /** `--name=value` when a value is present, nothing otherwise. */
  function Opt(name: string, value: Option<string>): seq<string>
  {
    if value.Some? then [name + value.value] else []
  }

  /** The bare `--name` switch when it is set, nothing otherwise. */
  function Switch(name: string, on: bool): seq<string>
  {
    if on then [name] else []
  }

  /** One `--name=value` token per value, in the order of the values. */
  function Each(name: string, values: seq<string>): seq<string>
  {
    seq(|values|, i requires 0 <= i < |values| => name + values[i])
  }

  lemma EachSnoc(name: string, values: seq<string>, i: nat)
    requires i < |values|
    ensures Each(name, values[..i + 1]) == Each(name, values[..i]) + [name + values[i]]
  {
    assert Each(name, values[..i + 1])[i] == name + values[i];
  }

  // ---------------------------------------------------------------------
  // Flag names and values

  predicate NoEquals(s: string)
  {
    forall i :: 0 <= i < |s| ==> s[i] != '='
  }

  /** A template for valued flags: `--name=`, whose only '=' is the last character. */
  predicate ValuedFlag(name: string)
  {
    |name| > 0 && name[|name| - 1] == '=' && NoEquals(name[..|name| - 1])
  }

  /** The flag a token belongs to: its text up to and including its first '='. */
  function FlagName(tok: string): (name: string)
    ensures |name| <= |tok|
  {
    if tok == [] then []
    else if tok[0] == '=' then "="
    else [tok[0]] + FlagName(tok[1..])
  }

  /** The value part of a token: what follows its flag name. */
  function FlagValue(tok: string): string
  {
    tok[|FlagName(tok)|..]
  }

  lemma {:induction false} FlagNameOfConcat(head: string, rest: string)
    requires NoEquals(head)
    ensures FlagName(head + rest) == head + FlagName(rest)
  {
    if head != [] {
      assert (head + rest)[1..] == head[1..] + rest;
      FlagNameOfConcat(head[1..], rest);
    } else {
      assert head + rest == rest;
    }
  }

  /** Whatever the value, `name + value` belongs to the valued flag `name` and carries `value`. */
  lemma FlagOfValued(name: string, value: string)
    requires ValuedFlag(name)
    ensures FlagName(name + value) == name
    ensures FlagValue(name + value) == value
  {
    var stem := name[..|name| - 1];
    assert name + value == stem + ("=" + value);
    FlagNameOfConcat(stem, "=" + value);
    assert stem + "=" == name;
  }

  /** A switch token is its own flag name. */
  lemma FlagOfSwitch(name: string)
    requires NoEquals(name)
    ensures FlagName(name) == name
  {
    assert name + [] == name;
    FlagNameOfConcat(name, []);
  }

  /** The values the tokens carry, one per token. */
  function Values(toks: seq<string>): (vs: seq<string>)
    ensures |vs| == |toks|
  {
    seq(|toks|, i requires 0 <= i < |toks| => FlagValue(toks[i]))
  }

  /** Reading back the values of a valued flag's tokens gives the values written. */
  lemma ValuesOfEach(name: string, values: seq<string>)
    requires ValuedFlag(name)
    ensures Values(Each(name, values)) == values
  {
    forall i | 0 <= i < |values| ensures Values(Each(name, values))[i] == values[i] {
      FlagOfValued(name, values[i]);
    }
  }

  lemma ValuesOfOpt(name: string, value: Option<string>)
    requires ValuedFlag(name)
    ensures Values(Opt(name, value)) == value.ToSeq()
  {
    if value.Some? {
      FlagOfValued(name, value.value);
    }
  }

  // ---------------------------------------------------------------------
  // Flag tables and ranks

  ghost predicate Distinct(table: seq<string>)
  {
    forall i, j :: 0 <= i < j < |table| ==> table[i] != table[j]
  }

  /** Position of `x` in `table`, or `|table|` when it is not there. */
  function IndexOf(x: string, table: seq<string>): (i: nat)
    ensures i <= |table|
    ensures i < |table| ==> table[i] == x
  {
    if table == [] then 0
    else if table[0] == x then 0
    else 1 + IndexOf(x, table[1..])
  }

  /** In a table without repetitions, the `k`-th flag is found at position `k`. */
  lemma {:induction false} IndexOfDistinct(table: seq<string>, k: nat)
    requires Distinct(table) && k < |table|
    ensures IndexOf(table[k], table) == k
  {
    if k > 0 {
      assert table[k] != table[0];
      assert table[1..][k - 1] == table[k];
      IndexOfDistinct(table[1..], k - 1);
    }
  }

  /** Position of a token's flag in the table (`|table|` for a flag the table does not list). */
  function Rank(tok: string, table: seq<string>): nat
  {
    IndexOf(FlagName(tok), table)
  }

  /** The ranking a table induces, as a function on tokens. */
  function RankIn(table: seq<string>): string -> nat
  {
    tok => Rank(tok, table)
  }

  /** Every token has rank `k`. */
  ghost predicate Ranked(ts: seq<string>, rank: string -> nat, k: nat)
  {
    forall i :: 0 <= i < |ts| ==> rank(ts[i]) == k
  }

  /** The tokens of one valued flag all carry that flag's rank. */
  lemma EachRanked(table: seq<string>, k: nat, values: seq<string>)
    requires Distinct(table) && k < |table| && ValuedFlag(table[k])
    ensures Ranked(Each(table[k], values), RankIn(table), k)
  {
    var ts := Each(table[k], values);
    forall i | 0 <= i < |ts| ensures RankIn(table)(ts[i]) == k {
      FlagOfValued(table[k], values[i]);
      IndexOfDistinct(table, k);
    }
  }

  lemma OptRanked(table: seq<string>, k: nat, value: Option<string>)
    requires Distinct(table) && k < |table| && ValuedFlag(table[k])
    ensures Ranked(Opt(table[k], value), RankIn(table), k)
  {
    if value.Some? {
      FlagOfValued(table[k], value.value);
      IndexOfDistinct(table, k);
    }
  }

  lemma SwitchRanked(table: seq<string>, k: nat, on: bool)
    requires Distinct(table) && k < |table| && NoEquals(table[k])
    ensures Ranked(Switch(table[k], on), RankIn(table), k)
  {
    FlagOfSwitch(table[k]);
    IndexOfDistinct(table, k);
  }

  // ---------------------------------------------------------------------
  // Order

  /** Every token's rank lies in `lo..hi`, and ranks never decrease along the run. */
  ghost predicate Segment(ts: seq<string>, rank: string -> nat, lo: nat, hi: nat)
  {
    && (forall i :: 0 <= i < |ts| ==> lo <= rank(ts[i]) <= hi)
    && (forall i, j :: 0 <= i < j < |ts| ==> rank(ts[i]) <= rank(ts[j]))
  }

  lemma RankedSegment(ts: seq<string>, rank: string -> nat, k: nat)
    requires Ranked(ts, rank, k)
    ensures Segment(ts, rank, k, k)
  {
  }

  /** Two ordered runs, the second starting at or after where the first ends,
      concatenate to an ordered run. */
  lemma Join(a: seq<string>, b: seq<string>, rank: string -> nat, lo: nat, mid: nat, mid': nat, hi: nat)
    requires Segment(a, rank, lo, mid) && Segment(b, rank, mid', hi)
    requires mid <= mid' && lo <= mid' && mid <= hi
    ensures Segment(a + b, rank, lo, hi)
  {
    var ab := a + b;
    forall i | 0 <= i < |ab| ensures lo <= rank(ab[i]) <= hi {
      if i < |a| { assert ab[i] == a[i]; } else { assert ab[i] == b[i - |a|]; }
    }
    forall i, j | 0 <= i < j < |ab| ensures rank(ab[i]) <= rank(ab[j]) {
      if j < |a| {
        assert ab[i] == a[i] && ab[j] == a[j];
      } else if i >= |a| {
        assert ab[i] == b[i - |a|] && ab[j] == b[j - |a|];
      } else {
        assert ab[i] == a[i] && ab[j] == b[j - |a|];
      }
    }
  }

  // ---------------------------------------------------------------------
  // Encodings made of one run of tokens per flag

  /** The runs one after the other. */
  function Flatten(runs: seq<seq<string>>): seq<string>
    decreases |runs|
  {
    if runs == [] then [] else Flatten(runs[..|runs| - 1]) + runs[|runs| - 1]
  }

  lemma {:induction false} FlattenConcat(a: seq<seq<string>>, b: seq<seq<string>>)
    ensures Flatten(a + b) == Flatten(a) + Flatten(b)
    decreases |b|
  {
    if b == [] {
      assert a + b == a;
    } else {
      var m := |b| - 1;
      assert (a + b)[..|a + b| - 1] == a + b[..m];
      assert (a + b)[|a + b| - 1] == b[m];
      FlattenConcat(a, b[..m]);
    }
  }

  lemma FlattenStep(runs: seq<seq<string>>, i: nat)
    requires i < |runs|
    ensures Flatten(runs[..i + 1]) == Flatten(runs[..i]) + runs[i]
  {
    assert runs[..i + 1][..i] == runs[..i];
  }

  /** Four runs flatten to their concatenation. */
  lemma FlattenFour(runs: seq<seq<string>>)
    requires |runs| == 4
    ensures Flatten(runs) == runs[0] + runs[1] + runs[2] + runs[3]
  {
    assert Flatten(runs[..3][..2][..1]) == runs[0];
    assert Flatten(runs[..3][..2]) == runs[0] + runs[1];
    assert Flatten(runs[..3]) == runs[0] + runs[1] + runs[2];
  }

  /** Three runs flatten to their concatenation. */
  lemma FlattenThree(runs: seq<seq<string>>)
    requires |runs| == 3
    ensures Flatten(runs) == runs[0] + runs[1] + runs[2]
  {
    assert Flatten(runs[..2][..1]) == runs[0];
    assert Flatten(runs[..2]) == runs[0] + runs[1];
  }

  /** Runs that are all empty flatten to nothing. */
  lemma {:induction false} FlattenEmptyRuns(runs: seq<seq<string>>)
    requires forall j :: 0 <= j < |runs| ==> runs[j] == []
    ensures Flatten(runs) == []
    decreases |runs|
  {
    if runs != [] {
      FlattenEmptyRuns(runs[..|runs| - 1]);
    }
  }

  /** Run `j` holds only tokens of rank `base + j`. */
  ghost predicate Stacked(runs: seq<seq<string>>, rank: string -> nat, base: nat)
  {
    forall j :: 0 <= j < |runs| ==> Ranked(runs[j], rank, base + j)
  }

  lemma StackedPrefix(runs: seq<seq<string>>, rank: string -> nat, base: nat, m: nat)
    requires Stacked(runs, rank, base) && m <= |runs|
    ensures Stacked(runs[..m], rank, base)
  {
    forall i | 0 <= i < m ensures runs[..m][i] == runs[i] { }
  }

  /** Runs stacked rank after rank make an ordered encoding. */
  lemma {:induction false} StackedInOrder(runs: seq<seq<string>>, rank: string -> nat, base: nat)
    requires Stacked(runs, rank, base) && 0 < |runs|
    ensures Segment(Flatten(runs), rank, base, base + |runs| - 1)
    decreases |runs|
  {
    var m := |runs| - 1;
    if m == 0 {
      OneRunInOrder(runs, rank, base);
    } else {
      StackedPrefix(runs, rank, base, m);
      StackedInOrder(runs[..m], rank, base);
      NextRunInOrder(runs, m, rank, base);
    }
  }

  lemma OneRunInOrder(runs: seq<seq<string>>, rank: string -> nat, base: nat)
    requires |runs| == 1 && Ranked(runs[0], rank, base)
    ensures Segment(Flatten(runs), rank, base, base)
  {
    assert Flatten(runs[..0]) == [];
    assert Flatten(runs) == runs[0];
    RankedSegment(runs[0], rank, base);
  }

  lemma NextRunInOrder(runs: seq<seq<string>>, m: nat, rank: string -> nat, base: nat)
    requires 0 < m && m + 1 == |runs|
    requires Segment(Flatten(runs[..m]), rank, base, base + m - 1) && Ranked(runs[m], rank, base + m)
    ensures Segment(Flatten(runs), rank, base, base + m)
  {
    assert Flatten(runs) == Flatten(runs[..m]) + runs[m];
    RankedSegment(runs[m], rank, base + m);
    Join(Flatten(runs[..m]), runs[m], rank, base, base + m - 1, base + m, base + m);
  }

  // ---------------------------------------------------------------------
  // Selecting the tokens of one flag

  /** The tokens of rank `k`, in the order they appear. */
  function Picked(ts: seq<string>, rank: string -> nat, k: nat): (p: seq<string>)
    ensures |p| <= |ts|
    decreases |ts|
  {
    if ts == [] then []
    else
      var last := ts[|ts| - 1];
      Picked(ts[..|ts| - 1], rank, k) + (if rank(last) == k then [last] else [])
  }

  lemma {:induction false} PickedConcat(a: seq<string>, b: seq<string>, rank: string -> nat, k: nat)
    ensures Picked(a + b, rank, k) == Picked(a, rank, k) + Picked(b, rank, k)
    decreases |b|
  {
    if b == [] {
      assert a + b == a;
    } else {
      var m := |b| - 1;
      assert (a + b)[..|a + b| - 1] == a + b[..m];
      assert (a + b)[|a + b| - 1] == b[m];
      PickedConcat(a, b[..m], rank, k);
    }
  }

  /** Nothing is picked exactly when no token has rank `k`. */
  lemma PickedNone(ts: seq<string>, rank: string -> nat, k: nat)
    ensures Picked(ts, rank, k) == [] <==> forall i :: 0 <= i < |ts| ==> rank(ts[i]) != k
  {
    if Picked(ts, rank, k) == [] {
      PickedEmpty(ts, rank, k);
    } else {
      PickedSome(ts, rank, k);
    }
  }

  lemma {:induction false} PickedEmpty(ts: seq<string>, rank: string -> nat, k: nat)
    requires Picked(ts, rank, k) == []
    ensures forall i :: 0 <= i < |ts| ==> rank(ts[i]) != k
    decreases |ts|
  {
    if ts != [] {
      var m := |ts| - 1;
      PickedEmpty(ts[..m], rank, k);
      assert forall i :: 0 <= i < m ==> ts[..m][i] == ts[i];
    }
  }

  lemma {:induction false} PickedSome(ts: seq<string>, rank: string -> nat, k: nat)
    requires Picked(ts, rank, k) != []
    ensures exists i :: 0 <= i < |ts| && rank(ts[i]) == k
    decreases |ts|
  {
    var m := |ts| - 1;
    if rank(ts[m]) != k {
      PickedSome(ts[..m], rank, k);
      var i :| 0 <= i < m && rank(ts[..m][i]) == k;
      assert ts[..m][i] == ts[i];
    }
  }

  /** A run of one rank is picked whole. */
  lemma {:induction false} PickedRanked(ts: seq<string>, rank: string -> nat, k: nat)
    requires Ranked(ts, rank, k)
    ensures Picked(ts, rank, k) == ts
    decreases |ts|
  {
    if ts != [] {
      var m := |ts| - 1;
      assert forall i :: 0 <= i < m ==> ts[..m][i] == ts[i];
      PickedRanked(ts[..m], rank, k);
      assert ts[..m] + [ts[m]] == ts;
    }
  }

  lemma PickedOutside(ts: seq<string>, rank: string -> nat, lo: nat, hi: nat, k: nat)
    requires Segment(ts, rank, lo, hi) && (k < lo || hi < k)
    ensures Picked(ts, rank, k) == []
  {
    PickedNone(ts, rank, k);
  }

  /** In stacked runs, the tokens of rank `base + j` are exactly run `j`. */
  lemma {:induction false} PickedOfStacked(runs: seq<seq<string>>, rank: string -> nat, base: nat, j: nat)
    requires Stacked(runs, rank, base) && j < |runs|
    ensures Picked(Flatten(runs), rank, base + j) == runs[j]
    decreases |runs|, 1
  {
    if j + 1 < |runs| {
      PickedOfEarlierRun(runs, rank, base, j);
    } else {
      PickedOfLastRun(runs, rank, base, j);
    }
  }

  lemma {:induction false} PickedOfEarlierRun(runs: seq<seq<string>>, rank: string -> nat, base: nat, j: nat)
    requires Stacked(runs, rank, base) && j + 1 < |runs|
    ensures Picked(Flatten(runs), rank, base + j) == runs[j]
    decreases |runs|, 0
  {
    var m := |runs| - 1;
    StackedPrefix(runs, rank, base, m);
    PickedOfStacked(runs[..m], rank, base, j);
    RankedSegment(runs[m], rank, base + m);
    PickedOutside(runs[m], rank, base + m, base + m, base + j);
    PickedFromFront(runs, m, rank, base + j);
    assert runs[..m][j] == runs[j];
  }

  lemma PickedOfLastRun(runs: seq<seq<string>>, rank: string -> nat, base: nat, j: nat)
    requires Stacked(runs, rank, base) && j + 1 == |runs|
    ensures Picked(Flatten(runs), rank, base + j) == runs[j]
  {
    if j == 0 {
      NothingFromNoRuns(runs[..j], rank, base + j);
    } else {
      StackedPrefix(runs, rank, base, j);
      NothingAfterRuns(runs[..j], rank, base);
    }
    PickedRanked(runs[j], rank, base + j);
    PickedFromLast(runs, j, rank, base + j);
  }

  /** When the last run, at `m`, has no token of rank `k`, those tokens all come from the runs before. */
  lemma PickedFromFront(runs: seq<seq<string>>, m: nat, rank: string -> nat, k: nat)
    requires m + 1 == |runs| && Picked(runs[m], rank, k) == []
    ensures Picked(Flatten(runs), rank, k) == Picked(Flatten(runs[..m]), rank, k)
  {
    var front, last := Flatten(runs[..m]), runs[m];
    PickedConcat(front, last, rank, k);
    AppendEmpty(Picked(front, rank, k), Picked(last, rank, k));
  }

  /** When the runs before the last, at `m`, have no token of rank `k`, those tokens all come from the last. */
  lemma PickedFromLast(runs: seq<seq<string>>, m: nat, rank: string -> nat, k: nat)
    requires m + 1 == |runs| && Picked(Flatten(runs[..m]), rank, k) == []
    ensures Picked(Flatten(runs), rank, k) == Picked(runs[m], rank, k)
  {
    var front, last := Flatten(runs[..m]), runs[m];
    PickedConcat(front, last, rank, k);
    AppendEmpty(Picked(last, rank, k), Picked(front, rank, k));
  }

  lemma NothingFromNoRuns(runs: seq<seq<string>>, rank: string -> nat, k: nat)
    requires |runs| == 0
    ensures Picked(Flatten(runs), rank, k) == []
  {
    assert Flatten(runs) == [];
  }

  /** Stacked runs have no token of the rank just after the last of them. */
  lemma NothingAfterRuns(runs: seq<seq<string>>, rank: string -> nat, base: nat)
    requires Stacked(runs, rank, base) && 0 < |runs|
    ensures Picked(Flatten(runs), rank, base + |runs|) == []
  {
    StackedInOrder(runs, rank, base);
    PickedOutside(Flatten(runs), rank, base, base + |runs| - 1, base + |runs|);
  }

  /** A token put in front is picked, or not, on its own. */
  lemma PickedAfterFirst(t: string, ts: seq<string>, rank: string -> nat, k: nat)
    ensures Picked([t] + ts, rank, k) == (if rank(t) == k then [t] else []) + Picked(ts, rank, k)
  {
    PickedConcat([t], ts, rank, k);
    assert [t][..0] == [];
  }

  /** The parts of a head token, a lead and a tail, put one after the other. */
  lemma SplitAfter(head: string, lead: seq<string>, tail: seq<string>)
    ensures var s := (([head] + lead) + tail);
      && s[0] == head && s[1..1 + |lead|] == lead && s[1 + |lead|..] == tail
      && forall i :: 0 <= i < |tail| ==> s[1 + |lead| + i] == tail[i]
  {
  }

  lemma AppendEmpty<T>(s: seq<T>, t: seq<T>)
    requires t == []
    ensures s + t == s && t + s == s
  {
  }

  // ---------------------------------------------------------------------
  // Flag tables with one field per flag

  /** The value of one option: an optional scalar, a switch, or a list. */
  datatype Field = Scalar(value: Option<string>) | Toggle(on: bool) | List(values: seq<string>)

  /** The tokens of flag `name` holding `f`. */
  function FlagTokens(name: string, f: Field): seq<string>
  {
    match f
    case Scalar(v) => Opt(name, v)
    case Toggle(on) => Switch(name, on)
    case List(vs) => Each(name, vs)
  }

  /** Switches are bare names; scalars and lists use valued-flag templates. */
  predicate KindFits(name: string, f: Field)
  {
    if f.Toggle? then NoEquals(name) else ValuedFlag(name)
  }

  /** A table of distinct flags, each holding a field of its kind. */
  ghost predicate WellFormedTable(table: seq<string>, fs: seq<Field>)
  {
    Distinct(table) && |fs| == |table| && forall k :: 0 <= k < |fs| ==> KindFits(table[k], fs[k])
  }

  /** Run `k` holds the tokens of flag `k`. */
  function RunsOf(table: seq<string>, fs: seq<Field>): (runs: seq<seq<string>>)
    requires |fs| == |table|
    ensures |runs| == |table|
  {
    seq(|fs|, k requires 0 <= k < |fs| => FlagTokens(table[k], fs[k]))
  }

  lemma RunRankedIn(table: seq<string>, k: nat, f: Field)
    requires Distinct(table) && k < |table| && KindFits(table[k], f)
    ensures Ranked(FlagTokens(table[k], f), RankIn(table), k)
  {
    match f
    case Scalar(v) => OptRanked(table, k, v);
    case Toggle(on) => SwitchRanked(table, k, on);
    case List(vs) => EachRanked(table, k, vs);
  }

  lemma RunsOfStacked(table: seq<string>, fs: seq<Field>)
    requires WellFormedTable(table, fs)
    ensures Stacked(RunsOf(table, fs), RankIn(table), 0)
  {
    var runs := RunsOf(table, fs);
    forall k | 0 <= k < |runs| ensures Ranked(runs[k], RankIn(table), 0 + k) {
      RunRankedIn(table, k, fs[k]);
    }
  }

  /** The tokens come in table order, and each belongs to a flag of the table. */
  lemma RunsInOrder(table: seq<string>, fs: seq<Field>)
    requires WellFormedTable(table, fs) && 0 < |table|
    ensures Segment(Flatten(RunsOf(table, fs)), RankIn(table), 0, |table| - 1)
  {
    RunsOfStacked(table, fs);
    StackedInOrder(RunsOf(table, fs), RankIn(table), 0);
  }

  /** The tokens of flag `k` are exactly the tokens of its field. */
  lemma PickedOfRuns(table: seq<string>, fs: seq<Field>, k: nat)
    requires WellFormedTable(table, fs) && k < |table|
    ensures Picked(Flatten(RunsOf(table, fs)), RankIn(table), k) == FlagTokens(table[k], fs[k])
  {
    RunsOfStacked(table, fs);
    PickedOfStacked(RunsOf(table, fs), RankIn(table), 0, k);
  }

  /** Every token's flag name is listed in the table. */
  lemma FlagsOfRuns(table: seq<string>, fs: seq<Field>)
    requires WellFormedTable(table, fs)
    ensures forall i :: 0 <= i < |Flatten(RunsOf(table, fs))| ==> FlagName(Flatten(RunsOf(table, fs))[i]) in table
  {
    var ts := Flatten(RunsOf(table, fs));
    if 0 < |table| {
      RunsInOrder(table, fs);
      forall i | 0 <= i < |ts| ensures FlagName(ts[i]) in table {
        assert IndexOf(FlagName(ts[i]), table) < |table|;
      }
    } else {
      FlattenEmptyRuns(RunsOf(table, fs));
    }
  }

  // ---------------------------------------------------------------------
  // Text

  /** `text` contains `part` somewhere. */
  predicate Mentions(text: string, part: string)
  {
    exists i {:trigger text[i..]} :: 0 <= i <= |text| && part <= text[i..]
  }
}
