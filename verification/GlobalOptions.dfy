/** Splitting the launcher's global options off a command line (launcher/cli.py:52-85). */
module GlobalOptions {
  import opened Common

  datatype Options = Options(noGpu: bool, remote: Option<string>, remoteSet: seq<string>)

  const NO_OPTIONS := Options(false, None, [])

  datatype UsageError =
    | NeedsValue(name: string)
    | GivenTwice(first: string, second: string)
    | BadAssignment(value: string)
    | SetNeedsRemote

  datatype Split = Split(options: Options, rest: seq<string>)

  // ---- tokens --------------------------------------------------------------------------------------

  /** `str.partition("=")[0]` and whether there was a separator, with what follows it. */
  function Name(token: string): string {
    if token == "" || token[0] == '=' then "" else [token[0]] + Name(token[1..])
  }

  function Inline(token: string): Option<string> {
    if token == "" then None else if token[0] == '=' then Some(token[1..]) else Inline(token[1..])
  }

  predicate TakesValue(name: string) {
    name == "--remote" || name == "--remote-set"
  }

  predicate Plain(token: string) {
    token != "--no-gpu" && !TakesValue(Name(token))
  }

  /** `not value or value.startswith("--")`, the other way round. */
  predicate GoodValue(value: string) {
    value != "" && !("--" <= value)
  }

  predicate HasEquals(value: string) {
    '=' in value
  }

  /** The options with one more value, if it may be given. */
  function Taken(o: Options, name: string, value: string): Result<Options, UsageError> {
    if !GoodValue(value) then Err(NeedsValue(name))
    else if name == "--remote" then
      if o.remote.Some? && o.remote.value != value then Err(GivenTwice(o.remote.value, value))
      else Ok(o.(remote := Some(value)))
    else if !HasEquals(value) then Err(BadAssignment(value))
    else Ok(o.(remoteSet := o.remoteSet + [value]))
  }

  // ---- the split as a function of the line -----------------------------------------------------------

  function Scan(tokens: seq<string>, s: Split): Result<Split, UsageError>
    decreases |tokens|
  {
    if tokens == [] then Ok(s)
    else
      var token := tokens[0];
      if token == "--no-gpu" then Scan(tokens[1..], s.(options := s.options.(noGpu := true)))
      else if Plain(token) then Scan(tokens[1..], s.(rest := s.rest + [token]))
      else
        var inline := Inline(token);
        var value := if inline.Some? then inline.value else if |tokens| > 1 then tokens[1] else "";
        var taken := Taken(s.options, Name(token), value);
        if taken.Err? then Err(taken.error)
        else Scan(if inline.Some? then tokens[1..] else tokens[2..], s.(options := taken.value))
  }

  function Checked(r: Result<Split, UsageError>): Result<Split, UsageError> {
    if r.Ok? && r.value.options.remoteSet != [] && r.value.options.remote.None? then Err(SetNeedsRemote) else r
  }

  function SplitLine(argv: seq<string>): Result<Split, UsageError> {
    Checked(Scan(argv, Split(NO_OPTIONS, [])))
  }

  method TakeGlobalOptions(argv: seq<string>) returns (r: Result<Split, UsageError>)
    ensures r == SplitLine(argv)
  {
    var noGpu, remote, remoteSet, rest := false, None, [], [];
    var next := 0;
    assert argv[0..] == argv;
    while next < |argv|
      invariant 0 <= next <= |argv|
      invariant Scan(argv, Split(NO_OPTIONS, [])) == Scan(argv[next..], Split(Options(noGpu, remote, remoteSet), rest))
    {
      var token := argv[next];
      ghost var left := argv[next..];
      assert left[0] == token && left[1..] == argv[next + 1..];
      assert |left| > 1 ==> left[1] == argv[next + 1] && left[2..] == argv[next + 2..];
      next := next + 1;
      if token == "--no-gpu" {
        noGpu := true;
      } else {
        var name, inline := Name(token), Inline(token);
        if !TakesValue(name) {
          rest := rest + [token];
        } else {
          var value := "";
          if inline.Some? {
            value := inline.value;
          } else if next < |argv| {
            value := argv[next];
            next := next + 1;
          }
          if !GoodValue(value) {
            return Err(NeedsValue(name));
          }
          if name == "--remote" {
            if remote.Some? && remote.value != value {
              return Err(GivenTwice(remote.value, value));
            }
            remote := Some(value);
          } else {
            if !HasEquals(value) {
              return Err(BadAssignment(value));
            }
            remoteSet := remoteSet + [value];
          }
        }
      }
    }
    if remoteSet != [] && remote.None? {
      return Err(SetNeedsRemote);
    }
    return Ok(Split(Options(noGpu, remote, remoteSet), rest));
  }

  // ---- what a split is ---------------------------------------------------------------------------------

  predicate AllPlain(tokens: seq<string>) {
    forall i :: 0 <= i < |tokens| ==> Plain(tokens[i])
  }

  predicate GoodOptions(o: Options) {
    && (o.remote.Some? ==> GoodValue(o.remote.value))
    && (forall i :: 0 <= i < |o.remoteSet| ==> GoodValue(o.remoteSet[i]) && HasEquals(o.remoteSet[i]))
  }

  /** `rest` is `tokens` with some left out. */
  predicate Subsequence(rest: seq<string>, tokens: seq<string>)
    decreases |tokens|
  {
    if tokens == [] then rest == []
    else Subsequence(rest, tokens[1..]) || (rest != [] && rest[0] == tokens[0] && Subsequence(rest[1..], tokens[1..]))
  }

  lemma {:induction false} PlainTokensStay(tokens: seq<string>, s: Split)
    requires AllPlain(tokens)
    ensures Scan(tokens, s) == Ok(s.(rest := s.rest + tokens))
    decreases |tokens|
  {
    if tokens == [] {
      assert s.rest + tokens == s.rest;
    } else {
      PlainTokensStay(tokens[1..], s.(rest := s.rest + [tokens[0]]));
      assert s.rest + [tokens[0]] + tokens[1..] == s.rest + tokens;
    }
  }

  /** What a line leaves: only good options and plain tokens, those in the order they came. */
  lemma {:induction false} ScanFacts(tokens: seq<string>, s: Split) returns (kept: seq<string>)
    requires Scan(tokens, s).Ok? && GoodOptions(s.options) && AllPlain(s.rest)
    ensures var t := Scan(tokens, s).value;
      GoodOptions(t.options) && AllPlain(t.rest) && t.rest == s.rest + kept && Subsequence(kept, tokens)
    decreases |tokens|
  {
    if tokens == [] {
      kept := [];
    } else {
      var token := tokens[0];
      if token == "--no-gpu" {
        kept := ScanFacts(tokens[1..], s.(options := s.options.(noGpu := true)));
      } else if Plain(token) {
        var more := ScanFacts(tokens[1..], s.(rest := s.rest + [token]));
        kept := [token] + more;
        assert kept[1..] == more;
      } else {
        var inline := Inline(token);
        var value := if inline.Some? then inline.value else if |tokens| > 1 then tokens[1] else "";
        var taken := Taken(s.options, Name(token), value).value;
        if inline.Some? {
          kept := ScanFacts(tokens[1..], s.(options := taken));
        } else {
          kept := ScanFacts(tokens[2..], s.(options := taken));
          assert tokens[1..][1..] == tokens[2..];
        }
      }
    }
  }

  // ---- printing and parsing again ------------------------------------------------------------------------

  function PrintSets(remoteSet: seq<string>): seq<string> {
    if remoteSet == [] then [] else ["--remote-set", remoteSet[0]] + PrintSets(remoteSet[1..])
  }

  /** The options as a line that gives them. */
  function Print(o: Options): seq<string> {
    (if o.noGpu then ["--no-gpu"] else [])
    + (if o.remote.Some? then ["--remote", o.remote.value] else [])
    + PrintSets(o.remoteSet)
  }

  lemma OptionNames()
    ensures Name("--remote") == "--remote" && Inline("--remote") == None
    ensures Name("--remote-set") == "--remote-set" && Inline("--remote-set") == None
  {
    NoEquals("--remote");
    NoEquals("--remote-set");
  }

  lemma {:induction false} NoEquals(token: string)
    requires '=' !in token
    ensures Name(token) == token && Inline(token) == None
  {
    if token != "" {
      NoEquals(token[1..]);
      assert [token[0]] + token[1..] == token;
    }
  }

  /** An option spelled as two tokens. */
  lemma PairIsRead(token: string, value: string, rest: seq<string>, s: Split, o: Options)
    requires TakesValue(Name(token)) && Inline(token).None? && token != "--no-gpu"
    requires Taken(s.options, Name(token), value) == Ok(o)
    ensures Scan([token, value] + rest, s) == Scan(rest, s.(options := o))
  {
    hide Taken, Name, Inline;
    var line := [token, value] + rest;
    assert line[0] == token && line[1] == value && line[2..] == rest;
  }

  lemma {:induction false} SetsAreRead(remoteSet: seq<string>, rest: seq<string>, s: Split)
    requires forall i :: 0 <= i < |remoteSet| ==> GoodValue(remoteSet[i]) && HasEquals(remoteSet[i])
    ensures Scan(PrintSets(remoteSet) + rest, s) ==
      Scan(rest, s.(options := s.options.(remoteSet := s.options.remoteSet + remoteSet)))
    decreases |remoteSet|
  {
    hide Scan, Name, Inline;
    if remoteSet == [] {
      assert PrintSets(remoteSet) + rest == rest;
      assert s.options.remoteSet + remoteSet == s.options.remoteSet;
    } else {
      OptionNames();
      assert PrintSets(remoteSet) + rest == ["--remote-set", remoteSet[0]] + (PrintSets(remoteSet[1..]) + rest);
      var o := s.options.(remoteSet := s.options.remoteSet + [remoteSet[0]]);
      PairIsRead("--remote-set", remoteSet[0], PrintSets(remoteSet[1..]) + rest, s, o);
      SetsAreRead(remoteSet[1..], rest, s.(options := o));
      assert s.options.remoteSet + [remoteSet[0]] + remoteSet[1..] == s.options.remoteSet + remoteSet;
    }
  }

  lemma NoGpuIsRead(rest: seq<string>, s: Split)
    ensures Scan(["--no-gpu"] + rest, s) == Scan(rest, s.(options := s.options.(noGpu := true)))
  {
    assert (["--no-gpu"] + rest)[1..] == rest;
  }

  lemma RemoteIsRead(value: string, rest: seq<string>, s: Split)
    requires GoodValue(value) && s.options.remote.None?
    ensures Scan(["--remote", value] + rest, s) == Scan(rest, s.(options := s.options.(remote := Some(value))))
  {
    hide Scan, Name, Inline;
    OptionNames();
    PairIsRead("--remote", value, rest, s, s.options.(remote := Some(value)));
  }

  lemma PrintedIsRead(o: Options, rest: seq<string>)
    requires GoodOptions(o)
    ensures Scan(Print(o) + rest, Split(NO_OPTIONS, [])) == Scan(rest, Split(o, []))
  {
    hide Scan, PrintSets, GoodValue, HasEquals;
    var s0 := Split(NO_OPTIONS, []);
    var sets := PrintSets(o.remoteSet) + rest;
    var remote := if o.remote.Some? then ["--remote", o.remote.value] else [];
    var s1 := s0.(options := s0.options.(noGpu := o.noGpu));
    var s2 := s1.(options := s1.options.(remote := o.remote));
    PrintIsInOrder(o, rest);
    if o.noGpu {
      NoGpuIsRead(remote + sets, s0);
    }
    assert Scan(Print(o) + rest, s0) == Scan(remote + sets, s1);
    if o.remote.Some? {
      RemoteIsRead(o.remote.value, sets, s1);
    } else {
      assert remote + sets == sets;
    }
    SetsAreRead(o.remoteSet, rest, s2);
    assert [] + o.remoteSet == o.remoteSet;
  }

  lemma PrintIsInOrder(o: Options, rest: seq<string>)
    ensures var remote := if o.remote.Some? then ["--remote", o.remote.value] else [];
      Print(o) + rest == (if o.noGpu then ["--no-gpu"] + (remote + (PrintSets(o.remoteSet) + rest))
                          else remote + (PrintSets(o.remoteSet) + rest))
  {
  }

  /** Printing the options before the remaining tokens and splitting again gives the same split;
      the remaining tokens hold no option; they are the line's, in its order. */
  lemma RoundTrip(argv: seq<string>)
    requires SplitLine(argv).Ok?
    ensures var s := SplitLine(argv).value;
      && SplitLine(Print(s.options) + s.rest) == Ok(s)
      && SplitLine(s.rest) == Ok(Split(NO_OPTIONS, s.rest))
      && Subsequence(s.rest, argv)
  {
    var s := SplitLine(argv).value;
    var kept := ScanFacts(argv, Split(NO_OPTIONS, []));
    assert [] + kept == kept;
    PrintedIsRead(s.options, s.rest);
    PlainTokensStay(s.rest, Split(s.options, []));
    PlainTokensStay(s.rest, Split(NO_OPTIONS, []));
    assert [] + s.rest == s.rest;
  }

  // ---- splitting pieces of a line --------------------------------------------------------------------------

  predicate Conflict(s: Split, t: Split) {
    s.options.remote.Some? && t.options.remote.Some? && s.options.remote != t.options.remote
  }

  function Merge(s: Split, t: Split): Split {
    Split(
      Options(
        s.options.noGpu || t.options.noGpu,
        if t.options.remote.Some? then t.options.remote else s.options.remote,
        s.options.remoteSet + t.options.remoteSet),
      s.rest + t.rest)
  }

  /** What is found after `s` is what would be found alone, merged. */
  ghost predicate Merges(s: Split, alone: Result<Split, UsageError>, after: Result<Split, UsageError>) {
    match alone
    case Err(_) => after.Err?
    case Ok(t) =>
      if Conflict(s, t) then after == Err(GivenTwice(s.options.remote.value, t.options.remote.value))
      else after == Ok(Merge(s, t))
  }

  const EMPTY := Split(NO_OPTIONS, [])

  lemma MergeEmpty(s: Split)
    ensures Merge(s, EMPTY) == s && Merge(EMPTY, s) == s
  {
    assert s.rest + [] == s.rest && [] + s.rest == s.rest;
    assert s.options.remoteSet + [] == s.options.remoteSet && [] + s.options.remoteSet == s.options.remoteSet;
  }

  lemma MergeAssociates(s: Split, h: Split, t: Split)
    ensures Merge(Merge(s, h), t) == Merge(s, Merge(h, t))
  {
    assert (s.rest + h.rest) + t.rest == s.rest + (h.rest + t.rest);
    assert (s.options.remoteSet + h.options.remoteSet) + t.options.remoteSet
      == s.options.remoteSet + (h.options.remoteSet + t.options.remoteSet);
  }

  /** The head's own split `h`, and the tail's, both after `s` and alone. */
  lemma MergeStep(s: Split, h: Split, tail: Result<Split, UsageError>, afterHead: Result<Split, UsageError>,
      afterBoth: Result<Split, UsageError>)
    requires !Conflict(s, h) && Merges(h, tail, afterHead) && Merges(Merge(s, h), tail, afterBoth)
    ensures Merges(s, afterHead, afterBoth)
  {
    if tail.Ok? && !Conflict(h, tail.value) {
      MergeAssociates(s, h, tail.value);
    }
  }

  lemma TakenMerges(o: Options, name: string, value: string)
    ensures var alone := Taken(NO_OPTIONS, name, value);
      var after := Taken(o, name, value);
      match alone
      case Err(e) => after == Err(e)
      case Ok(h) =>
        if Conflict(Split(o, []), Split(h, [])) then after == Err(GivenTwice(o.remote.value, value)) && h.remote == Some(value)
        else after.Ok? && forall rest :: Split(after.value, rest) == Merge(Split(o, rest), Split(h, []))
  {
    assert forall rest: seq<string> :: rest + [] == rest;
    assert o.remoteSet + [] == o.remoteSet;
    assert [] + [value] == [value];
  }

  /** The first token's piece of the line, its own split, and the rest of the line. */
  lemma {:induction false} ScanMerges(tokens: seq<string>, s: Split)
    ensures Merges(s, Scan(tokens, EMPTY), Scan(tokens, s))
    decreases |tokens|
  {
    if tokens == [] {
      MergeEmpty(s);
    } else {
      var token, tail := tokens[0], tokens[1..];
      if token == "--no-gpu" {
        var h := EMPTY.(options := NO_OPTIONS.(noGpu := true));
        MergeEmpty(s);
        HeadMerges(tokens, tail, s, h);
      } else if Plain(token) {
        var h := EMPTY.(rest := [token]);
        MergeEmpty(s);
        assert [] + [token] == [token];
        HeadMerges(tokens, tail, s, h);
      } else {
        OptionMerges(tokens, s);
      }
    }
  }

  lemma {:induction false} HeadMerges(tokens: seq<string>, tail: seq<string>, s: Split, h: Split)
    requires |tail| < |tokens| && !Conflict(s, h)
    requires Scan(tokens, EMPTY) == Scan(tail, h) && Scan(tokens, s) == Scan(tail, Merge(s, h))
    ensures Merges(s, Scan(tokens, EMPTY), Scan(tokens, s))
    decreases |tokens|, 0
  {
    hide Scan, Merges, Merge, Conflict;
    ScanMerges(tail, h);
    ScanMerges(tail, Merge(s, h));
    MergeStep(s, h, Scan(tail, EMPTY), Scan(tail, h), Scan(tail, Merge(s, h)));
  }

  lemma {:induction false} OptionMerges(tokens: seq<string>, s: Split)
    requires tokens != [] && tokens[0] != "--no-gpu" && !Plain(tokens[0])
    ensures Merges(s, Scan(tokens, EMPTY), Scan(tokens, s))
    decreases |tokens|, 1
  {
    var inline := Inline(tokens[0]);
    var value := if inline.Some? then inline.value else if |tokens| > 1 then tokens[1] else "";
    TakenMerges(s.options, Name(tokens[0]), value);
    var alone, after := Taken(NO_OPTIONS, Name(tokens[0]), value), Taken(s.options, Name(tokens[0]), value);
    hide Taken, Name, Inline;
    if alone.Ok? {
      var h := Split(alone.value, []);
      var tail := if inline.Some? then tokens[1..] else tokens[2..];
      if Conflict(s, h) {
        ScanKeepsRemote(tail, h);
      } else {
        HeadMerges(tokens, tail, s, h);
      }
    }
  }

  lemma {:induction false} ScanKeepsRemote(tokens: seq<string>, s: Split)
    requires s.options.remote.Some?
    ensures Scan(tokens, s).Ok? ==> Scan(tokens, s).value.options.remote == s.options.remote
    decreases |tokens|
  {
    if tokens != [] {
      var token := tokens[0];
      if token == "--no-gpu" {
        ScanKeepsRemote(tokens[1..], s.(options := s.options.(noGpu := true)));
      } else if Plain(token) {
        ScanKeepsRemote(tokens[1..], s.(rest := s.rest + [token]));
      } else {
        var inline := Inline(token);
        var value := if inline.Some? then inline.value else if |tokens| > 1 then tokens[1] else "";
        var taken := Taken(s.options, Name(token), value);
        if taken.Ok? {
          ScanKeepsRemote(if inline.Some? then tokens[1..] else tokens[2..], s.(options := taken.value));
        }
      }
    }
  }

  /** Reading on: a piece that splits by itself, followed by anything, leaves the reader at the
      start of what follows. */
  lemma {:induction false} ScanOn(before: seq<string>, after: seq<string>, s: Split)
    requires Scan(before, s).Ok?
    ensures Scan(before + after, s) == Scan(after, Scan(before, s).value)
    decreases |before|
  {
    if before == [] {
      assert before + after == after;
    } else {
      var line, token := before + after, before[0];
      assert line[0] == token && line[1..] == before[1..] + after;
      if token == "--no-gpu" {
        ScanOn(before[1..], after, s.(options := s.options.(noGpu := true)));
      } else if Plain(token) {
        ScanOn(before[1..], after, s.(rest := s.rest + [token]));
      } else {
        var inline := Inline(token);
        var value := if inline.Some? then inline.value else if |before| > 1 then before[1] else "";
        var taken := Taken(s.options, Name(token), value).value;
        if inline.Some? {
          ScanOn(before[1..], after, s.(options := taken));
        } else {
          assert |before| > 1 && line[1] == before[1] && line[2..] == before[2..] + after;
          ScanOn(before[2..], after, s.(options := taken));
        }
      }
    }
  }

  /** The options may stand anywhere: two pieces of a line, in either order, give the same
      flags and the same remote, or disagree about it; only the assignments and the remaining
      tokens follow the order of the pieces. */
  lemma PiecesInEitherOrder(a: seq<string>, b: seq<string>)
    requires Scan(a, EMPTY).Ok? && Scan(b, EMPTY).Ok?
    ensures var x, y := Scan(a, EMPTY).value, Scan(b, EMPTY).value;
      if Conflict(x, y) then Scan(a + b, EMPTY).Err? && Scan(b + a, EMPTY).Err?
      else
        && Scan(a + b, EMPTY) == Ok(Merge(x, y)) && Scan(b + a, EMPTY) == Ok(Merge(y, x))
        && Merge(x, y).options.noGpu == Merge(y, x).options.noGpu
        && Merge(x, y).options.remote == Merge(y, x).options.remote
  {
    hide Scan;
    ScanOn(a, b, EMPTY);
    ScanOn(b, a, EMPTY);
    ScanMerges(b, Scan(a, EMPTY).value);
    ScanMerges(a, Scan(b, EMPTY).value);
  }

  // ---- one option --------------------------------------------------------------------------------------------

  /** `name=value` is parted at the first equals sign, whatever the value holds. */
  lemma {:induction false} PartedAtFirst(name: string, value: string)
    requires '=' !in name
    ensures Name(name + "=" + value) == name && Inline(name + "=" + value) == Some(value)
  {
    var token := name + "=" + value;
    if name == "" {
      assert token[0] == '=' && token[1..] == value;
    } else {
      PartedAtFirst(name[1..], value);
      assert token[0] == name[0] && token[1..] == name[1..] + "=" + value;
      assert [name[0]] + name[1..] == name;
    }
  }

  /** What an option by itself says: its value must be there and not begin with two dashes, and an
      assignment must hold an equals sign. */
  function OneOption(name: string, value: string): Result<Split, UsageError> {
    if value == "" || (|value| >= 2 && value[0] == '-' && value[1] == '-') then Err(NeedsValue(name))
    else if name == "--remote" then Ok(Split(Options(false, Some(value), []), []))
    else if exists i :: 0 <= i < |value| && value[i] == '=' then Ok(Split(Options(false, None, [value]), []))
    else Err(BadAssignment(value))
  }

  lemma TakenIsOneOption(name: string, value: string)
    requires name == "--remote" || name == "--remote-set"
    ensures var taken := Taken(NO_OPTIONS, name, value);
      OneOption(name, value) == if taken.Ok? then Ok(Split(taken.value, [])) else Err(taken.error)
  {
    assert "--" <= value <==> |value| >= 2 && value[0] == '-' && value[1] == '-';
    assert [] + [value] == [value];
  }

  lemma AloneIsTaken(tokens: seq<string>, name: string, value: string)
    requires tokens != [] && tokens[0] != "--no-gpu" && Name(tokens[0]) == name && TakesValue(name)
    requires Inline(tokens[0]) == Some(value) || (Inline(tokens[0]).None? && value == if |tokens| > 1 then tokens[1] else "")
    requires |tokens| == if Inline(tokens[0]).None? && |tokens| > 1 then 2 else 1
    ensures Scan(tokens, EMPTY) == OneOption(name, value)
  {
    TakenIsOneOption(name, value);
    hide Name, Inline, Taken, OneOption;
    assert tokens[1..] == [] || tokens[2..] == [];
  }

  lemma OptionIsNoFlag(name: string, value: string)
    requires name == "--remote" || name == "--remote-set"
    ensures name + "=" + value != "--no-gpu"
  {
    assert '=' in name + "=" + value by {
      assert (name + "=" + value)[|name|] == '=';
    }
  }

  /** Both spellings of an option say that, and one without a value is refused. */
  lemma OptionSays(name: string, value: string)
    requires name == "--remote" || name == "--remote-set"
    ensures Scan([name, value], EMPTY) == OneOption(name, value)
    ensures Scan([name + "=" + value], EMPTY) == OneOption(name, value)
    ensures Scan([name], EMPTY) == Err(NeedsValue(name))
  {
    OptionNames();
    PartedAtFirst(name, value);
    OptionIsNoFlag(name, value);
    assert OneOption(name, "") == Err(NeedsValue(name));
    hide Name, Inline, OneOption, Scan;
    AloneIsTaken([name, value], name, value);
    AloneIsTaken([name + "=" + value], name, value);
    AloneIsTaken([name], name, "");
  }

  /** A whole line is refused, beyond what its pieces are refused for, exactly when it assigns to a
      remote it does not name. */
  lemma AssignmentsNeedRemote(argv: seq<string>)
    ensures Scan(argv, EMPTY).Err? ==> SplitLine(argv) == Scan(argv, EMPTY)
    ensures Scan(argv, EMPTY).Ok? ==>
      var o := Scan(argv, EMPTY).value.options;
      if |o.remoteSet| > 0 && o.remote == None then SplitLine(argv) == Err(SetNeedsRemote)
      else SplitLine(argv) == Scan(argv, EMPTY)
  {
  }
}
