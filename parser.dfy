/**
 * pkg/parser.go: an older copy of the descriptor parser and of the `key` lookup, with its
 * own `TemplateFlag` record. The lemmas at the end show that it behaves exactly like the
 * one in pkg/config.go.
 */
module Parser {
  import opened Wrappers
  import opened Strings
  import Config

  /** parser.go's own `TemplateFlag`: the same three fields as config.go's. */
  datatype TemplateFlag = TemplateFlag(source: string, target: string, action: string)

  /**
   * `ParseTemplateFlag`: fails exactly when there is no colon; otherwise source and target
   * hold no colon and the input is recovered from the three fields.
   */
  function ParseTemplateFlag(input: string): (r: Result<TemplateFlag, string>)
    ensures r.Failure? <==> ':' !in input
    ensures r.Failure? ==> r.error == Config.InvalidTemplate
    ensures r.Success? ==> ':' !in r.value.source && ':' !in r.value.target
    ensures r.Success? ==>
              || (input == Config.Joined2(r.value.source, r.value.target) && r.value.action == "")
              || input == Config.Joined3(r.value.source, r.value.target, r.value.action)
  {
    var firstColon := IndexRune(input, ':');
    if firstColon == -1 then
      Failure(Config.InvalidTemplate)
    else
      var rest := input[firstColon + 1..];
      var secondColon := IndexRune(rest, ':');
      Config.CutAt(input, firstColon);
      if secondColon == -1 then
        Success(TemplateFlag(input[..firstColon], input[firstColon + 1..], ""))
      else
        var second := secondColon + firstColon + 1;
        assert input[firstColon + 1..second] == rest[..secondColon];
        assert input[second + 1..] == rest[secondColon + 1..];
        Config.CutAt(rest, secondColon);
        Config.JoinedAssoc(input[..firstColon], rest[..secondColon], rest[secondColon + 1..]);
        Success(TemplateFlag(input[..firstColon], input[firstColon + 1..second], input[second + 1..]))
  }

  /** The same record, as config.go declares it. */
  function AsConfigFlag(f: TemplateFlag): Config.TemplateFlag {
    Config.TemplateFlag(f.source, f.target, f.action)
  }

  /** Both parsers fail on the same inputs with the same message, and agree on every field otherwise. */
  lemma ParsersAgree(input: string)
    ensures ParseTemplateFlag(input).Failure? <==> Config.ParseTemplateFlag(input).Failure?
    ensures ParseTemplateFlag(input).Failure? ==>
              ParseTemplateFlag(input).error == Config.ParseTemplateFlag(input).error
    ensures ParseTemplateFlag(input).Success? ==>
              AsConfigFlag(ParseTemplateFlag(input).value) == Config.ParseTemplateFlag(input).value
  {
  }

  /**
   * The split rules of this copy: one colon gives an empty action, two or more give the
   * whole rest after the second colon as the action.
   */
  lemma SplitRules(s: string, t: string, a: string)
    requires ':' !in s && ':' !in t
    ensures ParseTemplateFlag(Config.Joined2(s, t)) == Success(TemplateFlag(s, t, ""))
    ensures ParseTemplateFlag(Config.Joined3(s, t, a)) == Success(TemplateFlag(s, t, a))
  {
    Config.ParseOneColon(s, t);
    ParsersAgree(Config.Joined2(s, t));
    Config.ParseTwoColons(s, t, a);
    ParsersAgree(Config.Joined3(s, t, a));
  }

  /** parser.go's `key(name)`: the stored string, failing on a non-string argument or a missing key. */
  function Key(store: map<string, string>, conn: Config.Connection, arg: Config.Value)
    : (r: Result<Config.Value, Config.LookupError>)
    ensures arg.NotString? ==> r == Failure(Config.InvalidArgument)
    ensures r.Success? <==> arg.Str? && arg.s in store && conn.dialOk && conn.getOk && conn.closeOk
    ensures r.Success? ==> r.value == Config.Str(store[arg.s])
  {
    if !arg.Str? then Failure(Config.InvalidArgument)
    else if !conn.dialOk then Failure(Config.DialFailed)
    else if !conn.getOk then Failure(Config.CommandFailed)
    else if arg.s !in store then Failure(Config.KeyMissing)
    else if !conn.closeOk then Failure(Config.CloseFailed)
    else Success(Config.Str(store[arg.s]))
  }

  /** The two copies of `key` give the same value or the same error on every input. */
  lemma KeysAgree(store: map<string, string>, conn: Config.Connection, arg: Config.Value)
    ensures Key(store, conn, arg) == Config.Key(store, conn, arg)
  {
  }
}
