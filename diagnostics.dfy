/**
 * The client generator's diagnostic catalogue (codes OAS_CLIENT_100 .. OAS_CLIENT_117): for each
 * entry its code, its message template with `%s` placeholders, and its severity; and the
 * diagnostic values the generators collect.
 */
module Diagnostics {
  import opened Common

  datatype Message =
    | OAS_CLIENT_100 | OAS_CLIENT_101 | OAS_CLIENT_102 | OAS_CLIENT_103 | OAS_CLIENT_104
    | OAS_CLIENT_105 | OAS_CLIENT_106 | OAS_CLIENT_107 | OAS_CLIENT_108 | OAS_CLIENT_109
    | OAS_CLIENT_110 | OAS_CLIENT_111 | OAS_CLIENT_112 | OAS_CLIENT_113 | OAS_CLIENT_114
    | OAS_CLIENT_115 | OAS_CLIENT_116 | OAS_CLIENT_117

  datatype Severity = Error | Warning

  /**
   * A collected diagnostic: an entry of this catalogue with its format arguments, or a
   * diagnostic of another catalogue (OAS_COMMON_*, OAS_TYPE_*, ...) known by its code.
   */
  datatype Diagnostic =
    | Client(message: Message, args: seq<string>)
    | Other(code: string, args: seq<string>)

  /** The number in the entry's name. */
  function Number(m: Message): nat {
    match m
    case OAS_CLIENT_100 => 100 case OAS_CLIENT_101 => 101 case OAS_CLIENT_102 => 102
    case OAS_CLIENT_103 => 103 case OAS_CLIENT_104 => 104 case OAS_CLIENT_105 => 105
    case OAS_CLIENT_106 => 106 case OAS_CLIENT_107 => 107 case OAS_CLIENT_108 => 108
    case OAS_CLIENT_109 => 109 case OAS_CLIENT_110 => 110 case OAS_CLIENT_111 => 111
    case OAS_CLIENT_112 => 112 case OAS_CLIENT_113 => 113 case OAS_CLIENT_114 => 114
    case OAS_CLIENT_115 => 115 case OAS_CLIENT_116 => 116 case OAS_CLIENT_117 => 117
  }

  /** `getCode`. */
  function Code(m: Message): string {
    match m
    case OAS_CLIENT_100 => "OAS_CLIENT_100" case OAS_CLIENT_101 => "OAS_CLIENT_101"
    case OAS_CLIENT_102 => "OAS_CLIENT_102" case OAS_CLIENT_103 => "OAS_CLIENT_103"
    case OAS_CLIENT_104 => "OAS_CLIENT_104" case OAS_CLIENT_105 => "OAS_CLIENT_105"
    case OAS_CLIENT_106 => "OAS_CLIENT_106" case OAS_CLIENT_107 => "OAS_CLIENT_107"
    case OAS_CLIENT_108 => "OAS_CLIENT_108" case OAS_CLIENT_109 => "OAS_CLIENT_109"
    case OAS_CLIENT_110 => "OAS_CLIENT_110" case OAS_CLIENT_111 => "OAS_CLIENT_111"
    case OAS_CLIENT_112 => "OAS_CLIENT_112" case OAS_CLIENT_113 => "OAS_CLIENT_113"
    case OAS_CLIENT_114 => "OAS_CLIENT_114" case OAS_CLIENT_115 => "OAS_CLIENT_115"
    case OAS_CLIENT_116 => "OAS_CLIENT_116" case OAS_CLIENT_117 => "OAS_CLIENT_117"
  }

  /** `getSeverity`. */
  function SeverityOf(m: Message): Severity {
    match m
    case OAS_CLIENT_100 => Error case OAS_CLIENT_101 => Warning case OAS_CLIENT_102 => Warning
    case OAS_CLIENT_103 => Error case OAS_CLIENT_104 => Error case OAS_CLIENT_105 => Warning
    case OAS_CLIENT_106 => Warning case OAS_CLIENT_107 => Warning case OAS_CLIENT_108 => Warning
    case OAS_CLIENT_109 => Warning case OAS_CLIENT_110 => Warning case OAS_CLIENT_111 => Warning
    case OAS_CLIENT_112 => Error case OAS_CLIENT_113 => Warning case OAS_CLIENT_114 => Warning
    case OAS_CLIENT_115 => Warning case OAS_CLIENT_116 => Warning case OAS_CLIENT_117 => Warning
  }

  /** Literal template text: it never contains the `%` that starts a placeholder. */
  type PlainText = s: string | '%' !in s

  /** A literal piece of template text. */
  function Literal(s: string): PlainText
    requires '%' !in s
  {
    s
  }

  /** A template is kept as the literal segments around its `%s` placeholders. */
  const Template100: seq<PlainText> := [Literal("invalid reference " + "value : "), Literal(
      " ballerina only " + "supports local " + "reference values.")]
  const Template101: seq<PlainText> := [Literal("encounter unsupported " + "path parameter data " +
      "type for the " + "parameter: '"), Literal("'")]
  const Template102: seq<PlainText> := [Literal("encounter unsupported " + "query parameter data " +
      "type for the " + "parameter: '"), Literal("'")]
  const Template103: seq<PlainText> := [Literal("please define the " + "array item type of " +
      "the parameter : '"), Literal("'")]
  const Template104: seq<PlainText> := [Literal("error occurred while " + "generating query " +
      "parameter node: '"), Literal("'")]
  const Template105: seq<PlainText> := [Literal("provide non-empty " + "value for server " +
      "variable ")]
  const Template106: seq<PlainText> := [Literal("failed to read " + "endpoint details of " +
      "the server: '"), Literal("'")]
  const Template107: seq<PlainText> := [Literal("error while " + "generating ")]
  const Template108: seq<PlainText> := [Literal("encounter unsupported " + "header parameter data " +
      "type for the header: '"), Literal("'")]
  const Template109: seq<PlainText> := [Literal("encounter issue while " + "resolving reference: '"), Literal(
      "'")]
  const Template110: seq<PlainText> := [Literal("encounter unsupported " + "path parameter data " +
      "type, therefore " + "resource function " + "generation is skipped " + "for given path `"), Literal(
      "` , method `"), Literal("`")]
  const Template111: seq<PlainText> := [Literal("header parameter name " + "can not be empty")]
  const Template112: seq<PlainText> := [Literal("failed to generate " + "implementation " +
      "function for the " + "operation: '"), Literal("'")]
  const Template113: seq<PlainText> := [Literal("HTTP status code '"), Literal(
      "' is not supported in " + "Ballerina HTTP status " + "code responses")]
  const Template114: seq<PlainText> := [Literal("the operation: '"), Literal("' is skipped in the " +
      "client generation " + "since only a default " + "response found for ") + Literal(
      "the operation which " + "is not supported with " + "status code binding " + "option")]
  const Template115: seq<PlainText> := [Literal("the operation for " + "given path `"), Literal(
      "` , method `"), Literal("` is skipped in the " + "mock client function " +
      "generation since it " + "is not provided " + "success response")]
  const Template116: seq<PlainText> := [Literal("the operation for " + "given path `"), Literal(
      "` , method `"), Literal("` is skipped in the " + "mock client function " +
      "generation since it " + "is not provided with " + "examples")]
  const Template117: seq<PlainText> := [Literal("the operation for " + "given path `"), Literal(
      "` , method `"), Literal("` is skipped in the " + "mock client function " +
      "generation since it " + "has invalid reference")]

  function Segments(m: Message): seq<PlainText> {
    match m
    case OAS_CLIENT_100 => Template100
    case OAS_CLIENT_101 => Template101
    case OAS_CLIENT_102 => Template102
    case OAS_CLIENT_103 => Template103
    case OAS_CLIENT_104 => Template104
    case OAS_CLIENT_105 => Template105
    case OAS_CLIENT_106 => Template106
    case OAS_CLIENT_107 => Template107
    case OAS_CLIENT_108 => Template108
    case OAS_CLIENT_109 => Template109
    case OAS_CLIENT_110 => Template110
    case OAS_CLIENT_111 => Template111
    case OAS_CLIENT_112 => Template112
    case OAS_CLIENT_113 => Template113
    case OAS_CLIENT_114 => Template114
    case OAS_CLIENT_115 => Template115
    case OAS_CLIENT_116 => Template116
    case OAS_CLIENT_117 => Template117
  }

  /** The segments joined by the `%s` placeholder. */
  function JoinWithPlaceholders(segments: seq<PlainText>): string
    requires |segments| > 0
  {
    if |segments| == 1 then segments[0]
    else segments[0] + "%s" + JoinWithPlaceholders(segments[1..])
  }

  /** `getDescription`: the message template. */
  function Description(m: Message): string {
    JoinWithPlaceholders(Segments(m))
  }

  /** The number of arguments each entry is formatted with where the generators raise it. */
  function Arity(m: Message): nat {
    match m
    case OAS_CLIENT_105 => 0 case OAS_CLIENT_107 => 0 case OAS_CLIENT_111 => 0
    case OAS_CLIENT_110 => 2 case OAS_CLIENT_115 => 2 case OAS_CLIENT_116 => 2 case OAS_CLIENT_117 => 2
    case _ => 1
  }

  /** The code a collected diagnostic reports. */
  function CodeOf(d: Diagnostic): string {
    match d
    case Client(m, _) => Code(m)
    case Other(c, _) => c
  }

  /** A diagnostic of this catalogue with exactly the arguments its template expects. Every
      generator raises its client diagnostics through this function, so the argument count is
      checked against the entry at each place a diagnostic is raised. */
  function Diag(m: Message, args: seq<string>): (d: Diagnostic)
    requires |args| == Arity(m)
    ensures CodeOf(d) == Code(m)
    ensures d.Client? && d.args == args
  {
    Client(m, args)
  }

  // ---------------------------------------------------------------------------
  // Properties of the catalogue
  // ---------------------------------------------------------------------------

  /** Every code is the entry's own name: the prefix `OAS_CLIENT_` followed by its number. */
  lemma CodeIsEntryName(m: Message)
    ensures 100 <= Number(m) <= 117
    ensures Code(m) == "OAS_CLIENT_" + NatToString(Number(m))
  {
    var n := Number(m);
    assert 100 <= n <= 117;
    var digits := ['1', DigitChar(n / 10 % 10), DigitChar(n % 10)];
    assert NatToString(n) == digits by {
      assert NatToString(n / 10) == ['1', DigitChar(n / 10 % 10)];
    }
    assert Code(m) == "OAS_CLIENT_" + digits;
  }

  /** No two entries share a code. */
  lemma CodesDistinct(m1: Message, m2: Message)
    requires Code(m1) == Code(m2)
    ensures m1 == m2
  {
    CodeIsEntryName(m1);
    CodeIsEntryName(m2);
    var k := |"OAS_CLIENT_"|;
    assert Code(m1)[k..] == NatToString(Number(m1));
    assert Code(m2)[k..] == NatToString(Number(m2));
    NatToStringInjective(Number(m1), Number(m2));
  }

  lemma {:induction false} NatToStringInjective(a: nat, b: nat)
    requires NatToString(a) == NatToString(b)
    ensures a == b
  {
    var s := NatToString(a);
    if a >= 10 && b >= 10 {
      assert NatToString(a / 10) == s[..|s| - 1] == NatToString(b / 10);
      NatToStringInjective(a / 10, b / 10);
    }
  }

  /** Exactly the entries 100, 103, 104 and 112 are errors; all others are warnings. */
  lemma ErrorEntries(m: Message)
    ensures SeverityOf(m) == Error <==> Number(m) in {100, 103, 104, 112}
  {
  }

  /** Occurrences of the `%s` placeholder in a string. */
  function Placeholders(s: string): nat {
    if |s| < 2 then 0
    else if s[0] == '%' && s[1] == 's' then 1 + Placeholders(s[2..])
    else Placeholders(s[1..])
  }

  lemma {:induction false} PlaceholdersSkipLiteral(a: string, b: string)
    requires '%' !in a
    ensures Placeholders(a + b) == Placeholders(b)
  {
    if a == [] {
      assert a + b == b;
    } else {
      assert (a + b)[1..] == a[1..] + b;
      if |a + b| < 2 {
        assert b == [];
      } else {
        PlaceholdersSkipLiteral(a[1..], b);
      }
    }
  }

  lemma {:induction false} JoinPlaceholders(segments: seq<PlainText>)
    requires |segments| > 0
    ensures Placeholders(JoinWithPlaceholders(segments)) == |segments| - 1
  {
    if |segments| > 1 {
      var rest := JoinWithPlaceholders(segments[1..]);
      JoinPlaceholders(segments[1..]);
      var tail := "%s" + rest;
      assert tail[0] == '%' && tail[1] == 's' && tail[2..] == rest;
      assert segments[0] + "%s" + rest == segments[0] + tail;
      PlaceholdersSkipLiteral(segments[0], tail);
    } else {
      PlaceholdersSkipLiteral(segments[0], "");
      assert segments[0] + "" == segments[0];
    }
  }

  /** The template of every entry has exactly as many `%s` placeholders as the arguments it is
      formatted with. */
  lemma PlaceholderCount(m: Message)
    ensures Placeholders(Description(m)) == Arity(m)
  {
    JoinPlaceholders(Segments(m));
  }

  /** A diagnostic raised through `Diag` carries exactly as many arguments as its entry's
      template has `%s` placeholders, so formatting it neither drops nor lacks an argument. */
  lemma DiagFillsTemplate(m: Message, args: seq<string>)
    requires |args| == Arity(m)
    ensures var d := Diag(m, args);
      d.Client? && Placeholders(Description(d.message)) == |d.args|
  {
    PlaceholderCount(m);
  }
}
