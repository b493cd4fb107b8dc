/** Python's `str.format` with keyword arguments, as the bot uses it on its three
    templates, and those templates. */
module Template {
  import opened Wrappers

  /** Why formatting fails: a field whose name no keyword argument binds
      (KeyError), a field this model does not interpret (positional, attribute,
      index, conversion or format-spec fields), a `{` without a proper closing
      `}` or a `}` on its own (ValueError). */
  datatype FormatError =
    | UnboundName(name: string)
    | UnsupportedField(field: string)
    | MalformedField
    | SingleCloseBrace

  predicate IsBrace(c: char) {
    c == '{' || c == '}'
  }

  predicate NameChar(c: char) {
    !IsBrace(c) && c != '.' && c != '[' && c != ']' && c != ':' && c != '!'
  }

  /** A field that is just a keyword name: not empty, not a position, and with
      no attribute, index, conversion or format-spec part. */
  predicate IsKeywordName(s: string) {
    |s| > 0 && !('0' <= s[0] <= '9') && forall i :: 0 <= i < |s| ==> NameChar(s[i])
  }

  /** The first index at or after `i` that holds a brace, or `|t|`. */
  function NextBrace(t: string, i: nat): (j: nat)
    requires i <= |t|
    ensures i <= j <= |t|
    ensures forall k :: i <= k < j ==> !IsBrace(t[k])
    ensures j < |t| ==> IsBrace(t[j])
    decreases |t| - i
  {
    if i == |t| || IsBrace(t[i]) then i else NextBrace(t, i + 1)
  }

  function Prepend(p: string, r: Result<string, FormatError>): Result<string, FormatError> {
    match r
    case Ok(s) => Ok(p + s)
    case Err(e) => Err(e)
  }

  /** `t.format(**args)`: the template is read left to right; `{{` and `}}`
      stand for single braces, `{name}` for the value bound to `name`, and the
      first problem met is the error raised. */
  function Format(t: string, args: map<string, string>): Result<string, FormatError>
    decreases |t|
  {
    if t == [] then Ok([])
    else if t[0] == '{' then
      if |t| > 1 && t[1] == '{' then Prepend("{", Format(t[2..], args))
      else
        var j := NextBrace(t, 1);
        if j == |t| || t[j] == '{' then Err(MalformedField)
        else
          var name := t[1..j];
          if !IsKeywordName(name) then Err(UnsupportedField(name))
          else if name !in args then Err(UnboundName(name))
          else Prepend(args[name], Format(t[j + 1..], args))
    else if t[0] == '}' then
      if |t| > 1 && t[1] == '}' then Prepend("}", Format(t[2..], args))
      else Err(SingleCloseBrace)
    else Prepend([t[0]], Format(t[1..], args))
  }

  // ---------------------------------------------------------------------------
  // Templates as pieces: literal text and named fields
  // ---------------------------------------------------------------------------

  datatype Piece = Text(text: string) | Field(name: string)

  predicate WellFormed(ps: seq<Piece>) {
    forall i :: 0 <= i < |ps| ==> ps[i].Field? ==> IsKeywordName(ps[i].name)
  }

  /** Literal text written inside a template: every brace doubled. */
  function Escape(s: string): string {
    if s == [] then []
    else (if IsBrace(s[0]) then [s[0], s[0]] else [s[0]]) + Escape(s[1..])
  }

  /** The template text the pieces are written as. */
  function Source(ps: seq<Piece>): string {
    if ps == [] then []
    else
      match ps[0]
      case Text(s) => Escape(s) + Source(ps[1..])
      case Field(n) => "{" + n + "}" + Source(ps[1..])
  }

  /** The reference meaning of a template: its pieces in order, each field
      replaced by its binding; the first unbound field is the error. */
  function Fill(ps: seq<Piece>, args: map<string, string>): Result<string, FormatError> {
    if ps == [] then Ok([])
    else
      match ps[0]
      case Text(s) => Prepend(s, Fill(ps[1..], args))
      case Field(n) => if n in args then Prepend(args[n], Fill(ps[1..], args)) else Err(UnboundName(n))
  }

  predicate Bound(ps: seq<Piece>, args: map<string, string>) {
    forall i :: 0 <= i < |ps| ==> ps[i].Field? ==> ps[i].name in args
  }

  /** Filling succeeds exactly when every field is bound; otherwise it names the
      first unbound field. */
  lemma {:induction false} FillSucceedsIffBound(ps: seq<Piece>, args: map<string, string>)
    ensures Fill(ps, args).Ok? <==> Bound(ps, args)
    ensures Fill(ps, args).Err? ==>
      exists i :: 0 <= i < |ps| && ps[i].Field? && ps[i].name !in args && Bound(ps[..i], args)
                  && Fill(ps, args).error == UnboundName(ps[i].name)
  {
    if ps != [] {
      FillSucceedsIffBound(ps[1..], args);
      if Fill(ps, args).Err? && !(ps[0].Field? && ps[0].name !in args) {
        var i :| 0 <= i < |ps| - 1 && ps[1..][i].Field? && ps[1..][i].name !in args
                 && Bound(ps[1..][..i], args) && Fill(ps[1..], args).error == UnboundName(ps[1..][i].name);
        assert ps[i + 1] == ps[1..][i];
        assert ps[..i + 1] == [ps[0]] + ps[1..][..i];
      } else if Fill(ps, args).Err? {
        assert ps[..0] == [];
      }
    }
  }

  lemma PrependPrepend(a: string, b: string, r: Result<string, FormatError>)
    ensures Prepend(a, Prepend(b, r)) == Prepend(a + b, r)
  {
    if r.Ok? {
      assert a + (b + r.value) == (a + b) + r.value;
    }
  }

  /** Escaped text formats back to itself. */
  lemma {:induction false} FormatEscaped(s: string, rest: string, args: map<string, string>)
    ensures Format(Escape(s) + rest, args) == Prepend(s, Format(rest, args))
    decreases |s|
  {
    if s == [] {
      assert Escape(s) + rest == rest;
      assert Prepend(s, Format(rest, args)) == Format(rest, args) by {
        if Format(rest, args).Ok? { assert [] + Format(rest, args).value == Format(rest, args).value; }
      }
    } else {
      var head := if IsBrace(s[0]) then [s[0], s[0]] else [s[0]];
      var t := Escape(s) + rest;
      assert t == head + (Escape(s[1..]) + rest);
      FormatEscaped(s[1..], rest, args);
      if IsBrace(s[0]) {
        assert t[2..] == Escape(s[1..]) + rest;
      } else {
        assert t[1..] == Escape(s[1..]) + rest;
      }
      PrependPrepend([s[0]], s[1..], Format(rest, args));
      assert [s[0]] + s[1..] == s;
    }
  }

  /** A keyword field formats to its binding, or fails naming it. */
  lemma FormatField(name: string, rest: string, args: map<string, string>)
    requires IsKeywordName(name)
    ensures Format("{" + name + "}" + rest, args)
         == if name in args then Prepend(args[name], Format(rest, args)) else Err(UnboundName(name))
  {
    var t := "{" + name + "}" + rest;
    assert t[1] == name[0];
    assert forall k :: 1 <= k < |name| + 1 ==> t[k] == name[k - 1];
    assert t[|name| + 1] == '}';
    assert NextBrace(t, 1) == |name| + 1 by {
      NextBraceFirst(t, 1, |name| + 1);
    }
    assert t[1..|name| + 1] == name;
    assert t[|name| + 2..] == rest;
  }

  lemma {:induction false} NextBraceFirst(t: string, i: nat, j: nat)
    requires i <= j < |t| && IsBrace(t[j])
    requires forall k :: i <= k < j ==> !IsBrace(t[k])
    ensures NextBrace(t, i) == j
    decreases j - i
  {
    if i < j {
      NextBraceFirst(t, i + 1, j);
    }
  }

  /** Formatting the text of well-formed pieces is filling the pieces. */
  lemma {:induction false} FormatSource(ps: seq<Piece>, args: map<string, string>)
    requires WellFormed(ps)
    ensures Format(Source(ps), args) == Fill(ps, args)
  {
    if ps != [] {
      assert WellFormed(ps[1..]) by {
        forall i | 0 <= i < |ps| - 1 && ps[1..][i].Field? ensures IsKeywordName(ps[1..][i].name) {
          assert ps[1..][i] == ps[i + 1];
        }
      }
      FormatSource(ps[1..], args);
      match ps[0]
      case Text(s) =>
        FormatEscaped(s, Source(ps[1..]), args);
      case Field(n) =>
        assert IsKeywordName(ps[0].name);
        FormatField(n, Source(ps[1..]), args);
    }
  }

  // ---------------------------------------------------------------------------
  // The bot's three templates
  // ---------------------------------------------------------------------------

  const ChatGptIntro := "\nPlease draft a toot about a potential City of Cape Town service outage or update on an outage in a concerned and \nhelpful tone, using the details in the following JSON. The \"service_area\" field refers to the responsible department.\n\n"
  const ChatGptRule := "\n\nKeep it strictly under "
  const ChatGptOutro := " chars in length. Only return the content of the toot.\n"

  /** `CHATGPT_TEMPLATE`: the prompt, with fields `json_str` and `toot_length`.
      Its literal text holds no braces, so its `Source` is the text as written. */
  const ChatGptPieces := [Text(ChatGptIntro), Field("json_str"), Text(ChatGptRule), Field("toot_length"), Text(ChatGptOutro)]
  const ChatGptTemplate := Source(ChatGptPieces)

  const AlertsPrefix := "https://service-alerts.cct-datascience.xyz/alerts/"
  /** `ALERTS_TEMPLATE`: the lookup address of an alert, with field `alert_id`. */
  const AlertsPieces := [Text(AlertsPrefix), Field("alert_id"), Text(".json")]
  const AlertsTemplate := Source(AlertsPieces)

  const Attribution := "\n\nContent generated automatically from "
  /** `TOOT_TEMPLATE`: the posted text, with fields `answer_str` and `link_str`. */
  const TootPieces := [Field("answer_str"), Text(Attribution), Field("link_str")]
  const TootTemplate := Source(TootPieces)

  /** Filling text, field, text, field, text: the first unbound field, or the
      texts with the two values between them. */
  lemma FillTwoFields(a: string, n1: string, b: string, n2: string, c: string, args: map<string, string>)
    ensures Fill([Text(a), Field(n1), Text(b), Field(n2), Text(c)], args)
         == if n1 !in args then Err(UnboundName(n1))
            else if n2 !in args then Err(UnboundName(n2))
            else Ok(a + args[n1] + b + args[n2] + c)
  {
    var ps := [Text(a), Field(n1), Text(b), Field(n2), Text(c)];
    assert ps[1..] == [Field(n1), Text(b), Field(n2), Text(c)];
    assert ps[1..][1..] == [Text(b), Field(n2), Text(c)];
    assert ps[1..][1..][1..] == [Field(n2), Text(c)];
    assert ps[1..][1..][1..][1..] == [Text(c)];
    assert [Text(c)][1..] == [];
    assert Fill([Text(c)], args) == Ok(c) by {
      assert c + [] == c;
    }
    if n1 in args && n2 in args {
      var v1, v2 := args[n1], args[n2];
      assert Fill([Field(n2), Text(c)], args) == Ok(v2 + c);
      assert Fill([Text(b), Field(n2), Text(c)], args) == Ok(b + (v2 + c));
      assert Fill([Field(n1), Text(b), Field(n2), Text(c)], args) == Ok(v1 + (b + (v2 + c)));
      assert Fill(ps, args) == Ok(a + (v1 + (b + (v2 + c))));
      assert a + (v1 + (b + (v2 + c))) == a + v1 + b + v2 + c;
    } else if n1 !in args {
      assert Fill(ps[1..], args) == Err(UnboundName(n1));
    } else {
      assert Fill([Field(n2), Text(c)], args) == Err(UnboundName(n2));
      assert Fill([Text(b), Field(n2), Text(c)], args) == Err(UnboundName(n2));
      assert Fill(ps[1..], args) == Err(UnboundName(n2));
    }
  }

  /** A template of text, field, text, field, text formats field by field. */
  lemma FormatTwoFields(a: string, n1: string, b: string, n2: string, c: string, args: map<string, string>)
    requires IsKeywordName(n1) && IsKeywordName(n2)
    ensures Format(Source([Text(a), Field(n1), Text(b), Field(n2), Text(c)]), args)
         == if n1 !in args then Err(UnboundName(n1))
            else if n2 !in args then Err(UnboundName(n2))
            else Ok(a + args[n1] + b + args[n2] + c)
  {
    FormatSource([Text(a), Field(n1), Text(b), Field(n2), Text(c)], args);
    FillTwoFields(a, n1, b, n2, c, args);
  }

  /** Formatting the prompt template with only `json_str` bound always fails on
      the unbound `toot_length`, whatever the JSON text; with both bound it is the
      prompt text around the two values. */
  lemma ChatGptTemplateNeedsTootLength(json: string, length: string)
    ensures Format(ChatGptTemplate, map["json_str" := json]) == Err(UnboundName("toot_length"))
    ensures Format(ChatGptTemplate, map["json_str" := json, "toot_length" := length])
         == Ok(ChatGptIntro + json + ChatGptRule + length + ChatGptOutro)
  {
    assert IsKeywordName("json_str") && IsKeywordName("toot_length");
    FormatTwoFields(ChatGptIntro, "json_str", ChatGptRule, "toot_length", ChatGptOutro, map["json_str" := json]);
    FormatTwoFields(ChatGptIntro, "json_str", ChatGptRule, "toot_length", ChatGptOutro, map["json_str" := json, "toot_length" := length]);
  }

  /** A template of text, field, text formats to the binding between the texts. */
  lemma FormatOneField(a: string, n: string, c: string, args: map<string, string>)
    requires IsKeywordName(n) && n in args
    ensures Format(Source([Text(a), Field(n), Text(c)]), args) == Ok(a + args[n] + c)
  {
    var ps := [Text(a), Field(n), Text(c)];
    FormatSource(ps, args);
    assert ps[1..] == [Field(n), Text(c)] && ps[1..][1..] == [Text(c)] && [Text(c)][1..] == [];
    assert Fill([Text(c)], args) == Ok(c) by {
      assert c + [] == c;
    }
    assert a + (args[n] + c) == a + args[n] + c;
  }

  /** A template of field, text, field formats to the two bindings around the text. */
  lemma FormatFieldTextField(n1: string, b: string, n2: string, args: map<string, string>)
    requires IsKeywordName(n1) && IsKeywordName(n2) && n1 in args && n2 in args
    ensures Format(Source([Field(n1), Text(b), Field(n2)]), args) == Ok(args[n1] + b + args[n2])
  {
    var ps := [Field(n1), Text(b), Field(n2)];
    FormatSource(ps, args);
    assert ps[1..] == [Text(b), Field(n2)] && ps[1..][1..] == [Field(n2)] && [Field(n2)][1..] == [];
    assert Fill([Field(n2)], args) == Ok(args[n2]) by {
      assert args[n2] + [] == args[n2];
    }
    assert args[n1] + (b + args[n2]) == args[n1] + b + args[n2];
  }

  /** The alerts address of an alert id. */
  function AlertUrl(id: string): string {
    AlertsPrefix + id + ".json"
  }

  /** `ALERTS_TEMPLATE.format(alert_id=id)` is the alerts address of `id`,
      whatever characters, braces included, the id holds. */
  lemma AlertUrlFormats(id: string)
    ensures Format(AlertsTemplate, map["alert_id" := id]) == Ok(AlertUrl(id))
  {
    assert IsKeywordName("alert_id");
    FormatOneField(AlertsPrefix, "alert_id", ".json", map["alert_id" := id]);
  }

  /** The posted text: the body, a blank line, and the attribution line ending
      in the link. */
  function Toot(body: string, link: string): string {
    body + Attribution + link
  }

  /** `TOOT_TEMPLATE.format(answer_str=body, link_str=link)` is `Toot(body, link)`:
      braces in the body or the link are copied, not interpreted. */
  lemma TootFormats(body: string, link: string)
    ensures Format(TootTemplate, map["answer_str" := body, "link_str" := link]) == Ok(Toot(body, link))
  {
    assert IsKeywordName("answer_str") && IsKeywordName("link_str");
    assert "answer_str" != "link_str";
    FormatFieldTextField("answer_str", Attribution, "link_str", map["answer_str" := body, "link_str" := link]);
  }
}
