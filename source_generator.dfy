/**
 * The `add` command's front end: parsing its options into a key/value map, checking the
 * required ones, and writing the `[[tool.openapi]]` entry for `Ballerina.toml`.
 */
module SourceGenerator {
  import opened Common

  // Keys of the TOML table, and of the parsed argument map.
  const KeyInput := "filePath"
  const KeyId := "id"
  const KeyTargetModule := "targetModule"
  const OptionMode := "option.mode"
  const OptionStatusCodeBinding := "option.statusCodeBinding"
  const OptionTags := "option.tags"
  const OptionNullable := "option.nullable"
  const OptionLicense := "option.license"
  const OptionOperations := "option.operations"

  /** The keys written on the entry's first three lines. */
  predicate IsHeaderKey(key: string) {
    key == KeyInput || key == KeyId || key == KeyTargetModule
  }

  /** Every key the parser can store. */
  predicate IsKnownKey(key: string) {
    IsHeaderKey(key) || key == OptionMode || key == OptionStatusCodeBinding || key == OptionTags
    || key == OptionNullable || key == OptionLicense || key == OptionOperations
  }

  /** The key an option that takes a value stores it under. */
  function ValueOptionKey(option: string): Option<string> {
    if option == "-i" || option == "--input" then Some(KeyInput)
    else if option == "--id" then Some(KeyId)
    else if option == "--module" then Some(KeyTargetModule)
    else if option == "--mode" then Some(OptionMode)
    else if option == "--tags" then Some(OptionTags)
    else if option == "--license" then Some(OptionLicense)
    else if option == "--operations" then Some(OptionOperations)
    else None
  }

  /** The key a flag option stores "true" under. */
  function FlagOptionKey(option: string): Option<string> {
    if option == "--status-code-binding" then Some(OptionStatusCodeBinding)
    else if option == "-n" || option == "--nullable" then Some(OptionNullable)
    else None
  }

  function IllegalArgument(message: string): Thrown {
    Thrown("IllegalArgumentException", message)
  }

  /**
   * The parser's meaning: each option in turn; a value option takes the next token whatever
   * it is, a flag stores "true", anything else is an unknown option, and a value option
   * with no token after it is missing its value.
   */
  function Parse(tokens: seq<string>, parsed: map<string, string>): (r: Result<map<string, string>>)
    ensures r.Ok? ==> forall k :: k in r.value ==> k in parsed || IsKnownKey(k)
    ensures r.Ok? ==> forall k :: k in parsed ==> k in r.value
    decreases |tokens|
  {
    if tokens == [] then Ok(parsed)
    else
      var option := tokens[0];
      match ValueOptionKey(option)
      case Some(key) =>
        if |tokens| < 2 then Err(IllegalArgument("Missing value for option: " + option))
        else Parse(tokens[2..], parsed[key := tokens[1]])
      case None =>
        match FlagOptionKey(option)
        case Some(key) => Parse(tokens[1..], parsed[key := "true"])
        case None => Err(IllegalArgument("Unknown option: " + option))
  }

  /** `argumentsParser`: takes options off the front of the token list until it is empty. */
  method ArgumentsParser(arguments: seq<string>) returns (r: Result<map<string, string>>)
    ensures r == Parse(arguments, map[])
    ensures r.Ok? ==> forall k :: k in r.value ==> IsKnownKey(k)
  {
    var tokens := arguments;
    var argsMap: map<string, string> := map[];
    while tokens != []
      invariant Parse(tokens, argsMap) == Parse(arguments, map[])
      decreases |tokens|
    {
      var option := tokens[0];
      tokens := tokens[1..];
      var valueKey := ValueOptionKey(option);
      var flagKey := FlagOptionKey(option);
      if valueKey.Some? {
        if tokens == [] {
          return Err(IllegalArgument("Missing value for option: " + option));
        }
        argsMap := argsMap[valueKey.value := tokens[0]];
        tokens := tokens[1..];
      } else if flagKey.Some? {
        argsMap := argsMap[flagKey.value := "true"];
      } else {
        return Err(IllegalArgument("Unknown option: " + option));
      }
    }
    return Ok(argsMap);
  }

  /**
   * Options given later override earlier ones: parsing more tokens after a successful parse
   * continues from its map.
   */
  lemma {:induction false} ParseAppend(tokens: seq<string>, more: seq<string>, parsed: map<string, string>)
    requires Parse(tokens, parsed).Ok?
    ensures Parse(tokens + more, parsed) == Parse(more, Parse(tokens, parsed).value)
    decreases |tokens|
  {
    if tokens == [] {
      assert tokens + more == more;
    } else {
      var option := tokens[0];
      assert (tokens + more)[0] == option;
      if ValueOptionKey(option).Some? {
        assert (tokens + more)[1] == tokens[1];
        assert (tokens + more)[2..] == tokens[2..] + more;
        ParseAppend(tokens[2..], more, parsed[ValueOptionKey(option).value := tokens[1]]);
      } else {
        assert (tokens + more)[1..] == tokens[1..] + more;
        ParseAppend(tokens[1..], more, parsed[FlagOptionKey(option).value := "true"]);
      }
    }
  }

  /** A repeated value option keeps its last value. */
  lemma LastValueWins(tokens: seq<string>, option: string, value: string)
    requires ValueOptionKey(option).Some?
    requires Parse(tokens, map[]).Ok?
    ensures Parse(tokens + [option, value], map[]) == Ok(Parse(tokens, map[]).value[ValueOptionKey(option).value := value])
  {
    ParseAppend(tokens, [option, value], map[]);
    assert [option, value][2..] == [];
  }

  /** A value option as the last token is missing its value, whatever came before. */
  lemma TrailingValueOptionFails(tokens: seq<string>, option: string)
    requires ValueOptionKey(option).Some?
    requires Parse(tokens, map[]).Ok?
    ensures Parse(tokens + [option], map[]) == Err(IllegalArgument("Missing value for option: " + option))
  {
    ParseAppend(tokens, [option], map[]);
  }

  /** `validateArguments`: input, then module, then id must be present, checked in that order. */
  function ValidateArguments(arguments: map<string, string>): (r: Option<string>)
    ensures r.None? <==> KeyInput in arguments && KeyTargetModule in arguments && KeyId in arguments
    ensures KeyInput !in arguments ==> r == Some("Missing required argument: --input <path-to-openapi-contract>")
    ensures KeyInput in arguments && KeyTargetModule !in arguments ==>
      r == Some("Missing required argument: --module <target-module>")
    ensures KeyInput in arguments && KeyTargetModule in arguments && KeyId !in arguments ==>
      r == Some("Missing required argument: --id <module-id>")
  {
    if KeyInput !in arguments then Some("Missing required argument: --input <path-to-openapi-contract>")
    else if KeyTargetModule !in arguments then Some("Missing required argument: --module <target-module>")
    else if KeyId !in arguments then Some("Missing required argument: --id <module-id>")
    else None
  }

  /** `warpWithQuotes`. */
  function WarpWithQuotes(value: string): (r: string)
    ensures |r| == |value| + 2 && r[0] == '"' && r[|r| - 1] == '"' && r[1..|r| - 1] == value
  {
    "\"" + value + "\""
  }

  // ---------------------------------------------------------------------------
  // The TOML entry
  // ---------------------------------------------------------------------------

  /** `key = value` and a line separator. */
  function Line(key: string, value: string, ls: string): string {
    key + " = " + value + ls
  }

  /** The entry's opening: the table header and the id, module and input lines, quoted
      (a missing value prints as `null`). */
  function EntryHeader(arguments: map<string, string>, ls: string): string {
    ls + "[[tool.openapi]]" + ls
    + Line(KeyId, WarpWithQuotes(NullText(Get(arguments, KeyId))), ls)
    + Line(KeyTargetModule, WarpWithQuotes(NullText(Get(arguments, KeyTargetModule))), ls)
    + Line(KeyInput, WarpWithQuotes(NullText(Get(arguments, KeyInput))), ls)
  }

  function Get(m: map<string, string>, k: string): Option<string> {
    if k in m then Some(m[k]) else None
  }

  /** The line an option contributes: quoted mode and licence, `= true` switches, and the
      tag and operation lists as given; an unknown key throws. */
  function OptionLine(key: string, value: string, ls: string): (r: Result<string>)
    ensures r.Err? <==> !IsKnownKey(key) || IsHeaderKey(key)
    ensures r.Ok? && r.value != "" ==> StartsWith(r.value, key + " = ") && EndsWith(r.value, ls)
    ensures (key == OptionMode || key == OptionLicense) ==>
      r == Ok(if IsBlank(value) then "" else Line(key, WarpWithQuotes(value), ls))
    ensures (key == OptionStatusCodeBinding || key == OptionNullable) ==>
      r == Ok(if value == "true" then Line(key, "true", ls) else "")
    ensures (key == OptionTags || key == OptionOperations) ==>
      r == Ok(if IsBlank(value) then "" else Line(key, value, ls))
  {
    if key == OptionMode || key == OptionLicense then
      Ok(if IsBlank(value) then "" else Line(key, WarpWithQuotes(value), ls))
    else if key == OptionStatusCodeBinding || key == OptionNullable then
      Ok(if value == "true" then Line(key, "true", ls) else "")
    else if key == OptionTags || key == OptionOperations then
      Ok(if IsBlank(value) then "" else Line(key, value, ls))
    else Err(IllegalArgument("Unknown option: " + key))
  }

  /** The option lines for the keys in `order`, stopping at the first unknown key. */
  function OptionLines(arguments: map<string, string>, order: seq<string>, ls: string): Result<string>
    requires forall k :: k in order ==> k in arguments
    decreases |order|
  {
    if order == [] then Ok("")
    else
      match OptionLines(arguments, order[..|order| - 1], ls)
      case Err(t) => Err(t)
      case Ok(lines) =>
        var key := order[|order| - 1];
        match OptionLine(key, arguments[key], ls)
        case Err(t) => Err(t)
        case Ok(line) => Ok(lines + line)
  }

  /** The option keys, each once, in some order. */
  ghost predicate EnumeratesOptions(arguments: map<string, string>, order: seq<string>) {
    && NoDup(order)
    && (forall k :: k in order <==> k in arguments && !IsHeaderKey(k))
  }

  /** Whatever order the map yields its options in, a parsed map never hits the unknown-key throw. */
  lemma {:induction false} ParsedOptionsKnown(arguments: map<string, string>, order: seq<string>, ls: string)
    requires forall k :: k in arguments ==> IsKnownKey(k)
    requires EnumeratesOptions(arguments, order)
    ensures OptionLines(arguments, order, ls).Ok?
    decreases |order|
  {
    if order != [] {
      var init := order[..|order| - 1];
      assert EnumeratesOptions(arguments - {order[|order| - 1]}, init) by {
        forall k ensures k in init <==> k in arguments - {order[|order| - 1]} && !IsHeaderKey(k) {
          if k in init {
            var i :| 0 <= i < |init| && init[i] == k;
            assert order[i] == k;
          } else if k in order {
            assert k == order[|order| - 1];
          }
        }
      }
      ParsedOptionsKnownPrefix(arguments, init, ls);
    }
  }

  /** The prefix form of the lemma above. */
  lemma {:induction false} ParsedOptionsKnownPrefix(arguments: map<string, string>, order: seq<string>, ls: string)
    requires forall k :: k in arguments ==> IsKnownKey(k)
    requires forall k :: k in order ==> k in arguments && !IsHeaderKey(k)
    ensures OptionLines(arguments, order, ls).Ok?
    decreases |order|
  {
    if order != [] {
      ParsedOptionsKnownPrefix(arguments, order[..|order| - 1], ls);
    }
  }

  /**
   * `balTomlEntry`: the header, then one line per remaining option in the map's iteration
   * order, which is not specified; the order used is returned as `order`.
   */
  method BalTomlEntry(arguments: map<string, string>, ls: string) returns (r: Result<string>, ghost order: seq<string>)
    ensures EnumeratesOptions(arguments, order) || r.Err?
    ensures r.Ok? ==>
              && EnumeratesOptions(arguments, order)
              && OptionLines(arguments, order, ls).Ok?
              && r.value == EntryHeader(arguments, ls) + OptionLines(arguments, order, ls).value
    ensures (forall k :: k in arguments ==> IsKnownKey(k)) ==> r.Ok?
  {
    var entry := EntryHeader(arguments, ls);
    var remaining := arguments.Keys;
    var lines := "";
    order := [];
    while remaining != {}
      invariant remaining <= arguments.Keys
      invariant NoDup(order)
      invariant forall k :: k in order <==> k in arguments && !IsHeaderKey(k) && k !in remaining
      invariant OptionLines(arguments, order, ls) == Ok(lines)
      decreases remaining
    {
      var key :| key in remaining;
      remaining := remaining - {key};
      if IsHeaderKey(key) {
        continue;
      }
      var line := OptionLine(key, arguments[key], ls);
      if line.Err? {
        return Err(line.thrown), order;
      }
      NoDupSnoc(order, key);
      order := order + [key];
      lines := lines + line.value;
    }
    return Ok(entry + lines), order;
  }

  lemma NoDupSnoc(s: seq<string>, x: string)
    requires NoDup(s) && x !in s
    ensures NoDup(s + [x])
  {
  }

  /** The licence header of generated files: empty for a missing or blank licence, otherwise
      the licence and a newline. */
  function LicenceHeader(licence: Option<string>): (r: string)
    ensures r == "" <==> licence.None? || IsBlank(licence.value)
    ensures r != "" ==> r[..|r| - 1] == licence.value && r[|r| - 1] == '\n'
  {
    if licence.None? || IsBlank(licence.value) then "" else licence.value + "\n"
  }
}
