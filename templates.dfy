/** Text templates with named placeholders: the email templates filled with str.format and
    the posts built with f-strings. A template is a sequence of literal runs and
    placeholders; a placeholder with no value renders as its own "{name}" text. */
module Templates {
  import opened Text

  datatype Segment = Lit(text: string) | Field(name: string)

  type Template = seq<Segment>

  /** The text of a placeholder in the template: "{" + name + "}". */
  function Placeholder(name: string): string
  {
    "{" + name + "}"
  }

  function Piece(s: Segment, values: map<string, string>): string
  {
    match s
    case Lit(t) => t
    case Field(n) => if n in values then values[n] else Placeholder(n)
  }

  function Render(t: Template, values: map<string, string>): string
  {
    if t == [] then [] else Piece(t[0], values) + Render(t[1..], values)
  }

  /** The placeholder names in order of appearance, repeats included: what
      re.findall(r'\{([^}]+)\}', text) yields on the template's text. */
  function Names(t: Template): (ns: seq<string>)
    ensures forall n :: n in ns <==> Field(n) in t
  {
    if t == [] then []
    else
      var rest := Names(t[1..]);
      assert forall n :: Field(n) in t <==> t[0] == Field(n) || Field(n) in t[1..];
      (if t[0].Field? then [t[0].name] else []) + rest
  }

  /** Every placeholder of t has a value. */
  predicate AllPresent(t: Template, values: map<string, string>)
  {
    forall k :: 0 <= k < |t| && t[k].Field? ==> t[k].name in values
  }

  predicate IsNameChar(c: char) { IsLetter(c) || ('0' <= c <= '9') || c == '_' }

  /** Literal runs hold no braces and names are non-empty identifiers, so the template's
      text splits back into exactly these segments. */
  predicate WellFormed(t: Template)
  {
    forall k :: 0 <= k < |t| ==>
      match t[k]
      case Lit(s) => '{' !in s && '}' !in s
      case Field(n) => |n| > 0 && forall i :: 0 <= i < |n| ==> IsNameChar(n[i])
  }

  lemma {:induction false} RenderAppend(a: Template, b: Template, values: map<string, string>)
    ensures Render(a + b, values) == Render(a, values) + Render(b, values)
  {
    if a == [] {
      assert a + b == b;
    } else {
      assert (a + b)[1..] == a[1..] + b;
      RenderAppend(a[1..], b, values);
    }
  }

  lemma RenderCons(t: Template, values: map<string, string>)
    requires t != []
    ensures Render(t, values) == Piece(t[0], values) + Render(t[1..], values)
  {
  }

  /** The rendering contains the rendering of each segment. */
  lemma {:induction false} RenderContainsPiece(t: Template, values: map<string, string>, k: nat)
    requires k < |t|
    ensures Contains(Render(t, values), Piece(t[k], values))
  {
    var head, rest := Piece(t[0], values), Render(t[1..], values);
    RenderCons(t, values);
    if k == 0 {
      ContainsPrefix(head, rest);
    } else {
      RenderContainsPiece(t[1..], values, k - 1);
      assert t[1..][k - 1] == t[k];
      ContainsSuffix(head, rest);
      ContainsTrans(Render(t, values), rest, Piece(t[k], values));
    }
  }

  /** A filled-in placeholder's value occurs in the rendering. */
  lemma RenderContainsValue(t: Template, values: map<string, string>, n: string)
    requires Field(n) in t && n in values
    ensures Contains(Render(t, values), values[n])
  {
    var k :| 0 <= k < |t| && t[k] == Field(n);
    RenderContainsPiece(t, values, k);
  }

  /** Two templates render alike when they render alike segment by segment. */
  lemma {:induction false} RenderPointwise(a: Template, ma: map<string, string>, b: Template, mb: map<string, string>)
    requires |a| == |b|
    requires forall k :: 0 <= k < |a| ==> Piece(a[k], ma) == Piece(b[k], mb)
    ensures Render(a, ma) == Render(b, mb)
  {
    if a != [] {
      RenderPointwise(a[1..], ma, b[1..], mb);
    }
  }

  /** Values for names the template does not use have no effect. */
  lemma RenderIgnoresUnused(t: Template, values: map<string, string>, n: string, v: string)
    requires Field(n) !in t
    ensures Render(t, values[n := v]) == Render(t, values)
  {
    forall k | 0 <= k < |t| ensures Piece(t[k], values[n := v]) == Piece(t[k], values) {
      assert t[k] != Field(n);
    }
    RenderPointwise(t, values[n := v], t, values);
  }

  /** With every placeholder filled by a brace-free value, a well-formed template leaves no
      brace behind. */
  lemma {:induction false} RenderBraceFree(t: Template, values: map<string, string>)
    requires WellFormed(t) && AllPresent(t, values)
    requires forall n :: n in values ==> '{' !in values[n] && '}' !in values[n]
    ensures '{' !in Render(t, values) && '}' !in Render(t, values)
  {
    if t != [] {
      RenderBraceFree(t[1..], values);
    }
  }
}
