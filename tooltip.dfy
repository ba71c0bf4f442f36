/** Marker tooltips: which datasets get one, which template is used, and the
    `{field}` placeholder substitution `addMarker` performs with the regular
    expression `/\{(.*?)\}/g`. */
module Tooltip {
  import opened Values

  /** The characters `.` does not match in a JavaScript regular expression. */
  predicate LineTerminator(c: char) {
    c == '\n' || c == '\r' || c == '\U{2028}' || c == '\U{2029}'
  }

  /** Where the placeholder opened just before `t` closes: the first `}` in
      `t`, provided no line terminator comes before it. */
  function CloseBrace(t: string): (r: Option<nat>)
    ensures r.Some? ==> r.value < |t| && t[r.value] == '}'
    ensures r.Some? ==> forall k :: 0 <= k < r.value ==> t[k] != '}' && !LineTerminator(t[k])
  {
    if t == [] then None
    else if t[0] == '}' then Some(0)
    else if LineTerminator(t[0]) then None
    else
      match CloseBrace(t[1..])
      case None => None
      case Some(k) => Some(k + 1)
  }

  /** The replacement for one placeholder: the looked-up value, or the empty
      string when the lookup gives `null`. */
  function OrEmpty(v: Option<string>): string {
    match v
    case Some(s) => s
    case None => ""
  }

  /** `t.replace(/\{(.*?)\}/g, ...)`: each `{name}` (the shortest one, on one
      line) is replaced by `lookup(name)`; a `{` that opens no placeholder is
      kept and the scan goes on after it. */
  function Substitute(t: string, lookup: string -> Option<string>): string
    decreases |t|
  {
    if t == [] then []
    else if t[0] == '{' then
      match CloseBrace(t[1..])
      case Some(k) => OrEmpty(lookup(t[1..k + 1])) + Substitute(t[k + 2..], lookup)
      case None => "{" + Substitute(t[1..], lookup)
    else [t[0]] + Substitute(t[1..], lookup)
  }

  /** A template read as literal text and placeholders: the reference the
      substitution is checked against. */
  datatype Piece = Literal(text: string) | Placeholder(name: string)

  function Render(ps: seq<Piece>): string {
    if ps == [] then []
    else
      match ps[0]
      case Literal(s) => s + Render(ps[1..])
      case Placeholder(n) => "{" + n + "}" + Render(ps[1..])
  }

  function Fill(ps: seq<Piece>, lookup: string -> Option<string>): string {
    if ps == [] then []
    else
      match ps[0]
      case Literal(s) => s + Fill(ps[1..], lookup)
      case Placeholder(n) => OrEmpty(lookup(n)) + Fill(ps[1..], lookup)
  }

  /** Literal text holds no `{`, and a placeholder name holds neither `}` nor
      a line terminator. */
  predicate WellFormed(ps: seq<Piece>) {
    forall i :: 0 <= i < |ps| ==>
      match ps[i]
      case Literal(s) => '{' !in s
      case Placeholder(n) => '}' !in n && forall c :: c in n ==> !LineTerminator(c)
  }

  /** Text without `{` is copied through unchanged. */
  lemma {:induction false} SubstituteLiteral(s: string, rest: string, lookup: string -> Option<string>)
    requires '{' !in s
    ensures Substitute(s + rest, lookup) == s + Substitute(rest, lookup)
    decreases |s|
  {
    if s != [] {
      assert s[0] in s;
      assert (s + rest)[0] == s[0] != '{';
      assert (s + rest)[1..] == s[1..] + rest;
      SubstituteLiteral(s[1..], rest, lookup);
      calc {
        Substitute(s + rest, lookup);
        [s[0]] + Substitute(s[1..] + rest, lookup);
        [s[0]] + (s[1..] + Substitute(rest, lookup));
        { assert s == [s[0]] + s[1..]; }
        s + Substitute(rest, lookup);
      }
    } else {
      assert s + rest == rest;
    }
  }

  lemma {:induction false} CloseAfterName(n: string, rest: string)
    requires '}' !in n && forall c :: c in n ==> !LineTerminator(c)
    ensures CloseBrace(n + "}" + rest) == Some(|n|)
    decreases |n|
  {
    if n != [] {
      assert (n + "}" + rest)[0] == n[0];
      assert (n + "}" + rest)[1..] == n[1..] + "}" + rest;
      CloseAfterName(n[1..], rest);
    }
  }

  /** One placeholder followed by more text. */
  lemma SubstitutePlaceholder(n: string, rest: string, lookup: string -> Option<string>)
    requires '}' !in n && forall c :: c in n ==> !LineTerminator(c)
    ensures Substitute("{" + n + "}" + rest, lookup) == OrEmpty(lookup(n)) + Substitute(rest, lookup)
  {
    var t := "{" + n + "}" + rest;
    assert t[1..] == n + "}" + rest;
    CloseAfterName(n, rest);
    assert t[1..|n| + 1] == n;
    assert t[|n| + 2..] == rest;
  }

  /** Substitution replaces every placeholder of a well-formed template by its
      value (or by nothing) and keeps the literal text, in order. */
  lemma {:induction false} SubstituteFills(ps: seq<Piece>, lookup: string -> Option<string>)
    requires WellFormed(ps)
    ensures Substitute(Render(ps), lookup) == Fill(ps, lookup)
    decreases |ps|
  {
    if ps != [] {
      assert WellFormed(ps[1..]) by {
        forall i | 0 <= i < |ps[1..]| ensures ps[1..][i] == ps[i + 1] { }
      }
      SubstituteFills(ps[1..], lookup);
      match ps[0]
      case Literal(s) =>
        assert WellFormed(ps) && 0 < |ps|;
        assert '{' !in s;
        SubstituteLiteral(s, Render(ps[1..]), lookup);
      case Placeholder(n) =>
        assert 0 < |ps|;
        SubstitutePlaceholder(n, Render(ps[1..]), lookup);
    }
  }

  /** A template without `{` is shown verbatim. */
  lemma PlainTemplateIsVerbatim(t: string, lookup: string -> Option<string>)
    requires '{' !in t
    ensures Substitute(t, lookup) == t
  {
    SubstituteLiteral(t, [], lookup);
    assert t + [] == t;
  }

  function ExamplePieces(): seq<Piece> {
    [Literal("<b>"), Placeholder("name"), Literal("</b>")]
  }

  lemma ExampleRenders()
    ensures Render(ExamplePieces()) == "<b>{name}</b>" && WellFormed(ExamplePieces())
  {
    var ps := ExamplePieces();
    assert Render(ps[3..]) == [];
    assert Render(ps[2..]) == "</b>";
    assert Render(ps[1..]) == "{name}</b>";
  }

  /** `<b>{name}</b>` becomes `<b>X</b>` for a dataset named X and `<b></b>`
      for one without a name: the placeholder never stays in the output. */
  lemma NameExample(t: string, lookup: string -> Option<string>)
    requires t == "<b>{name}</b>"
    ensures lookup("name") == Some("X") ==> Substitute(t, lookup) == "<b>X</b>"
    ensures lookup("name") == None ==> Substitute(t, lookup) == "<b></b>"
  {
    var ps := ExamplePieces();
    ExampleRenders();
    SubstituteFills(ps, lookup);
    assert Fill(ps[3..], lookup) == [];
    assert Fill(ps[2..], lookup) == "</b>";
  }

  /** Which datasets get a tooltip: those with a name, a title or an icon. */
  predicate HasTooltipData(ds: DataSet) {
    Truthy(Attr(ds, "name")) || Truthy(Attr(ds, "title")) || Truthy(Attr(ds, "icon"))
  }

  /** The tooltip `addMarker` binds, if any. The template is the source's own
      entry of `customMarkerTooltip`, else its `default` entry; when neither
      exists, reading the template's content throws. */
  function TooltipText(ds: DataSet, templates: map<string, string>,
                       dataValue: (DataSet, string) -> Option<string>): (r: Result<Option<string>, Fault>)
    ensures !HasTooltipData(ds) ==> r == Ok(None)
    ensures HasTooltipData(ds) && ds.fromName in templates ==>
              r == Ok(Some(Substitute(templates[ds.fromName], name => dataValue(ds, name))))
    ensures HasTooltipData(ds) && ds.fromName !in templates && "default" in templates ==>
              r == Ok(Some(Substitute(templates["default"], name => dataValue(ds, name))))
    ensures r.Err? <==> HasTooltipData(ds) && ds.fromName !in templates && "default" !in templates
  {
    if !HasTooltipData(ds) then Ok(None)
    else
      var template := if ds.fromName in templates then Some(templates[ds.fromName])
                      else if "default" in templates then Some(templates["default"])
                      else None;
      match template
      case None => Err(TypeError)
      case Some(t) => Ok(Some(Substitute(t, name => dataValue(ds, name))))
  }
}
