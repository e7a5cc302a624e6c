/**
 * pkg/config.go: the `source:target:action` template descriptor, its parser and printer,
 * the list of descriptors given on the command line, and the two lookup functions
 * (`key`, `keyOrDefault`) that a template body may call.
 */
module Config {
  import opened Wrappers
  import opened Strings

  /** One `-template` descriptor: the template file, the file to write, the command to run. */
  datatype TemplateFlag = TemplateFlag(source: string, target: string, action: string)

  /** The message of the error returned for a descriptor without a colon. */
  const InvalidTemplate := "invalid template given"

  /** The one-colon form `s:t` of a descriptor. */
  function Joined2(s: string, t: string): string {
    s + ":" + t
  }

  /** The two-colon form `s:t:a` of a descriptor. */
  function Joined3(s: string, t: string, a: string): string {
    s + ":" + t + ":" + a
  }

  /** A string with a colon at `i` is the one-colon join of what lies before and after it. */
  lemma CutAt(s: string, i: nat)
    requires i < |s| && s[i] == ':'
    ensures s == Joined2(s[..i], s[i + 1..])
  {
    assert s == s[..i] + [s[i]] + s[i + 1..];
  }

  lemma JoinedAssoc(a: string, b: string, c: string)
    ensures Joined2(a, Joined2(b, c)) == Joined3(a, b, c)
  {
  }

  /**
   * `ParseTemplateFlag`: split on the first and the second colon. The result fails exactly
   * when there is no colon; otherwise source and target hold no colon and the input is
   * recovered from the fields (the one-colon form leaves the action empty).
   */
  function ParseTemplateFlag(input: string): (r: Result<TemplateFlag, string>)
    ensures r.Failure? <==> ':' !in input
    ensures r.Failure? ==> r.error == InvalidTemplate
    ensures r.Success? ==> ':' !in r.value.source && ':' !in r.value.target
    ensures r.Success? ==>
              || (input == Joined2(r.value.source, r.value.target) && r.value.action == "")
              || input == Joined3(r.value.source, r.value.target, r.value.action)
  {
    var firstColon := IndexRune(input, ':');
    if firstColon == -1 then
      Failure(InvalidTemplate)
    else
      var rest := input[firstColon + 1..];
      var secondColon := IndexRune(rest, ':');
      CutAt(input, firstColon);
      if secondColon == -1 then
        Success(TemplateFlag(input[..firstColon], input[firstColon + 1..], ""))
      else
        var second := secondColon + firstColon + 1;
        assert input[firstColon + 1..second] == rest[..secondColon];
        assert input[second + 1..] == rest[secondColon + 1..];
        CutAt(rest, secondColon);
        JoinedAssoc(input[..firstColon], rest[..secondColon], rest[secondColon + 1..]);
        Success(TemplateFlag(input[..firstColon], input[firstColon + 1..second], input[second + 1..]))
  }

  /**
   * `TemplateFlag.String`: the descriptor printed back, without the last colon when there
   * is no action. It starts with the source and a colon, and holds one separator besides
   * the fields, or two when there is an action.
   */
  function FlagString(f: TemplateFlag): (r: string)
    ensures f.source + ":" <= r
    ensures |r| == |f.source| + |f.target| + |f.action| + (if f.action == "" then 1 else 2)
  {
    if f.action == "" then Joined2(f.source, f.target)
    else Joined3(f.source, f.target, f.action)
  }

  /** The two sides of the colon in `p:q`. */
  lemma Halves(p: string, q: string)
    ensures Joined2(p, q)[..|p|] == p && Joined2(p, q)[|p| + 1..] == q
  {
  }

  /** A colon-free prefix is the part before the first colon, so the one-colon form is unambiguous. */
  lemma JoinedUnique2(s: string, t: string, s': string, t': string)
    requires ':' !in s && ':' !in s'
    ensures Joined2(s, t) == Joined2(s', t') <==> s == s' && t == t'
  {
    IndexRuneAfter(s, ':', t);
    IndexRuneAfter(s', ':', t');
    Halves(s, t);
    Halves(s', t');
  }

  /** With colon-free source and target, the two-colon form is unambiguous. */
  lemma JoinedUnique3(s: string, t: string, a: string, s': string, t': string, a': string)
    requires ':' !in s && ':' !in t && ':' !in s' && ':' !in t'
    ensures Joined3(s, t, a) == Joined3(s', t', a') <==> s == s' && t == t' && a == a'
  {
    JoinedAssoc(s, t, a);
    JoinedAssoc(s', t', a');
    JoinedUnique2(s, Joined2(t, a), s', Joined2(t', a'));
    JoinedUnique2(t, a, t', a');
  }

  /** A two-colon form is never a one-colon form with a colon-free target. */
  lemma NotJoined2(s: string, t: string, a: string, s': string, t': string)
    requires ':' !in s && ':' !in s' && ':' !in t'
    ensures Joined3(s, t, a) != Joined2(s', t')
  {
    JoinedAssoc(s, t, a);
    JoinedUnique2(s, Joined2(t, a), s', t');
    Halves(t, a);
    assert Joined2(t, a)[|t|] == ':';
  }

  /** With exactly one colon, source is before it, target after it and the action is empty. */
  lemma ParseOneColon(s: string, t: string)
    requires ':' !in s && ':' !in t
    ensures ParseTemplateFlag(Joined2(s, t)) == Success(TemplateFlag(s, t, ""))
  {
    Halves(s, t);
    assert Joined2(s, t)[|s|] == ':';
    var f := ParseTemplateFlag(Joined2(s, t)).value;
    JoinedUnique2(f.source, f.target, s, t);
    NotJoined2(f.source, f.target, f.action, s, t);
  }

  /**
   * With two or more colons, source is before the first, target between the first and the
   * second, and the action is all the rest, further colons included.
   */
  lemma ParseTwoColons(s: string, t: string, a: string)
    requires ':' !in s && ':' !in t
    ensures ParseTemplateFlag(Joined3(s, t, a)) == Success(TemplateFlag(s, t, a))
  {
    JoinedAssoc(s, t, a);
    Halves(s, Joined2(t, a));
    assert Joined3(s, t, a)[|s|] == ':';
    var f := ParseTemplateFlag(Joined3(s, t, a)).value;
    NotJoined2(s, t, a, f.source, f.target);
    JoinedUnique3(f.source, f.target, f.action, s, t, a);
  }

  /** Printing a flag whose source and target hold no colon and parsing it back gives the flag. */
  lemma PrintThenParse(f: TemplateFlag)
    requires ':' !in f.source && ':' !in f.target
    ensures ParseTemplateFlag(FlagString(f)) == Success(f)
  {
    if f.action == "" {
      ParseOneColon(f.source, f.target);
    } else {
      ParseTwoColons(f.source, f.target, f.action);
    }
  }

  /**
   * Parsing and printing back gives the descriptor again, except for one shape: two colons
   * and nothing after the second, whose trailing colon the printer drops.
   */
  lemma ParseThenPrint(input: string)
    requires ParseTemplateFlag(input).Success?
    ensures var f := ParseTemplateFlag(input).value;
            FlagString(f) == input <==> input != Joined3(f.source, f.target, "")
  {
    var f := ParseTemplateFlag(input).value;
    if f.action == "" && input == Joined3(f.source, f.target, "") {
      assert |FlagString(f)| < |input|;
    }
  }

  /** The failing case of pkg/config_test.go: no colon at all. */
  lemma ParserTableNoColon()
    ensures ParseTemplateFlag("foobar") == Failure(InvalidTemplate)
  {
  }

  /** The one-colon cases of pkg/config_test.go, `":"` giving the all-empty flag. */
  lemma ParserTableOneColon()
    ensures ParseTemplateFlag("foo:bar") == Success(TemplateFlag("foo", "bar", ""))
    ensures ParseTemplateFlag("foo:") == Success(TemplateFlag("foo", "", ""))
    ensures ParseTemplateFlag(":") == Success(TemplateFlag("", "", ""))
  {
    assert "foo:bar" == Joined2("foo", "bar");
    ParseOneColon("foo", "bar");
    assert "foo:" == Joined2("foo", "");
    ParseOneColon("foo", "");
    assert ":" == Joined2("", "");
    ParseOneColon("", "");
  }

  /** The two-colon case of pkg/config_test.go with all three fields. */
  lemma ParserTableTwoColons()
    ensures ParseTemplateFlag("foo:bar:baz") == Success(TemplateFlag("foo", "bar", "baz"))
  {
    assert "foo:bar:baz" == Joined3("foo", "bar", "baz");
    ParseTwoColons("foo", "bar", "baz");
  }

  /** `"::"` parses to the all-empty flag, as `":"` does. */
  lemma ParserTableDoubleColon()
    ensures ParseTemplateFlag("::") == Success(TemplateFlag("", "", ""))
  {
    assert "::" == Joined3("", "", "");
    ParseTwoColons("", "", "");
  }

  /** The two realistic cases of pkg/config_test.go, with paths for source and target. */
  lemma ParserTablePaths()
    ensures ParseTemplateFlag(Joined2("/app/propman.json.tpl", "/app/propman.json"))
            == Success(TemplateFlag("/app/propman.json.tpl", "/app/propman.json", ""))
    ensures ParseTemplateFlag(Joined3("/app/propman.json.tpl", "/app/propman.json", "/app/update.sh"))
            == Success(TemplateFlag("/app/propman.json.tpl", "/app/propman.json", "/app/update.sh"))
  {
    ParseOneColon("/app/propman.json.tpl", "/app/propman.json");
    ParseTwoColons("/app/propman.json.tpl", "/app/propman.json", "/app/update.sh");
  }

  /** The strings of `xs`, in order, with no separator. */
  function ConcatMap<T>(show: T -> string, xs: seq<T>): string
    decreases |xs|
  {
    if xs == [] then ""
    else ConcatMap(show, xs[..|xs| - 1]) + show(xs[|xs| - 1])
  }

  lemma {:induction false} ConcatMapAppend<T>(show: T -> string, a: seq<T>, b: seq<T>)
    ensures ConcatMap(show, a + b) == ConcatMap(show, a) + ConcatMap(show, b)
    decreases |b|
  {
    if b == [] {
      assert a + b == a;
    } else {
      var n := |b| - 1;
      var ab := a + b;
      assert ab[..|ab| - 1] == a + b[..n];
      assert ab[|ab| - 1] == b[n];
      ConcatMapAppend(show, a, b[..n]);
    }
  }

  /** What `TemplateFlags.String` prints: every flag's string, in order, with no separator. */
  function Printed(flags: seq<TemplateFlag>): string {
    ConcatMap(FlagString, flags)
  }

  /** Printing a list made of two parts prints the first part, then the second. */
  lemma PrintedAppend(a: seq<TemplateFlag>, b: seq<TemplateFlag>)
    ensures Printed(a + b) == Printed(a) + Printed(b)
  {
    ConcatMapAppend(FlagString, a, b);
  }

  /**
   * A successful `Set` of a descriptor in printed form makes `String` grow by exactly that
   * descriptor.
   */
  lemma PrintedAfterSet(flags: seq<TemplateFlag>, value: string)
    requires ParseTemplateFlag(value).Success?
    requires FlagString(ParseTemplateFlag(value).value) == value
    ensures Printed(flags + [ParseTemplateFlag(value).value]) == Printed(flags) + value
  {
    var f := ParseTemplateFlag(value).value;
    PrintedAppend(flags, [f]);
    assert [f][..0] == [];
  }

  /** The printout has no separator, so two different lists can print alike. */
  lemma PrintedIsAmbiguous()
    ensures Printed([TemplateFlag("a", "b", ""), TemplateFlag("c", "d", "")])
            == Printed([TemplateFlag("a", "bc", "d")])
  {
    var x, y := TemplateFlag("a", "b", ""), TemplateFlag("c", "d", "");
    var z := TemplateFlag("a", "bc", "d");
    PrintedAppend([x], [y]);
    assert [x] + [y] == [x, y];
    assert [x][..0] == [] && [y][..0] == [] && [z][..0] == [];
    assert FlagString(x) + FlagString(y) == FlagString(z);
  }

  /** `TemplateFlags`: the slice of descriptors that `flag.Var` fills, one `Set` per `-template`. */
  class TemplateFlags {
    var flags: seq<TemplateFlag>

    constructor ()
      ensures flags == []
    {
      flags := [];
    }

    /**
     * `Set`: parse one descriptor; on success append exactly that flag, on failure return
     * the parser's error and leave the list as it was.
     */
    method Set(value: string) returns (err: Option<string>)
      modifies this
      ensures ParseTemplateFlag(value).Success? ==>
                err == None && flags == old(flags) + [ParseTemplateFlag(value).value]
      ensures ParseTemplateFlag(value).Failure? ==>
                err == Some(ParseTemplateFlag(value).error) && flags == old(flags)
    {
      var parsed := ParseTemplateFlag(value);
      match parsed {
        case Failure(e) =>
          return Some(e);
        case Success(f) =>
          flags := flags + [f];
          return None;
      }
    }

    /** `String`: write every flag's string into a buffer, in order. */
    method String() returns (s: string)
      ensures s == Printed(flags)
    {
      var buffer := "";
      for i := 0 to |flags|
        invariant buffer == Printed(flags[..i])
      {
        assert flags[..i + 1][..i] == flags[..i];
        buffer := buffer + FlagString(flags[i]);
      }
      assert flags[..|flags|] == flags;
      return buffer;
    }
  }

  /** An argument a template passes to a lookup function: a string, or any other Go value. */
  datatype Value = Str(s: string) | NotString

  /**
   * What the store connection does during one lookup: whether dialling succeeds, whether
   * the GET command gets a reply other than a missing key, and whether closing succeeds.
   */
  datatype Connection = Connection(dialOk: bool, getOk: bool, closeOk: bool)

  datatype LookupError = InvalidArgument | DialFailed | CommandFailed | KeyMissing | CloseFailed

  /** `key(name)`: the stored string, failing on a non-string argument or a missing key. */
  function Key(store: map<string, string>, conn: Connection, arg: Value): (r: Result<Value, LookupError>)
    ensures arg.NotString? ==> r == Failure(InvalidArgument)
    ensures r.Success? <==> arg.Str? && arg.s in store && conn.dialOk && conn.getOk && conn.closeOk
    ensures r.Success? ==> r.value == Str(store[arg.s])
    ensures arg.Str? && arg.s !in store && conn.dialOk && conn.getOk ==> r == Failure(KeyMissing)
  {
    if !arg.Str? then Failure(InvalidArgument)
    else if !conn.dialOk then Failure(DialFailed)
    else if !conn.getOk then Failure(CommandFailed)
    else if arg.s !in store then Failure(KeyMissing)
    else if !conn.closeOk then Failure(CloseFailed)
    else Success(Str(store[arg.s]))
  }

  /**
   * `keyOrDefault(name, fallback)`: like `key`, except that a missing key yields the fallback
   * (the connection is still closed, and a failing close is still an error).
   */
  function KeyOrDefault(store: map<string, string>, conn: Connection, arg: Value, fallback: Value)
    : (r: Result<Value, LookupError>)
    ensures arg.NotString? ==> r == Failure(InvalidArgument)
    ensures r.Success? <==> arg.Str? && conn.dialOk && conn.getOk && conn.closeOk
    ensures r.Success? ==> r.value == if arg.s in store then Str(store[arg.s]) else fallback
  {
    if !arg.Str? then Failure(InvalidArgument)
    else if !conn.dialOk then Failure(DialFailed)
    else if !conn.getOk then Failure(CommandFailed)
    else if !conn.closeOk then Failure(CloseFailed)
    else if arg.s !in store then Success(fallback)
    else Success(Str(store[arg.s]))
  }

  /**
   * The two lookups agree wherever `key` succeeds, and `keyOrDefault` yields its fallback
   * exactly where `key` reports the key missing.
   */
  lemma KeyOrDefaultExtendsKey(store: map<string, string>, conn: Connection, arg: Value, fallback: Value)
    requires conn.closeOk
    ensures Key(store, conn, arg).Success? ==> KeyOrDefault(store, conn, arg, fallback) == Key(store, conn, arg)
    ensures Key(store, conn, arg) == Failure(KeyMissing) <==>
              arg.Str? && arg.s !in store && KeyOrDefault(store, conn, arg, fallback) == Success(fallback)
  {
  }
}
