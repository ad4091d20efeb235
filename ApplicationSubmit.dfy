/**
 * The submit form of src/pages/ApplicationSubmitPage.jsx: which forms the
 * browser lets through (every field required, the name restricted by the
 * pattern `[a-z0-9\-]+`), the payload `handleSubmit` builds from them, and
 * that it navigates home only after the submission has gone through.
 *
 * The submission itself is network I/O: its outcome is a parameter.
 */
module ApplicationSubmit {
  import opened JsValues
  import opened JsNumber

  /** The five named controls of the form, as the strings the browser holds. */
  datatype Form = Form(name: string, port: string, gitUrl: string, branch: string, description: string)

  /** One character of `[a-z0-9\-]`. */
  predicate NameChar(c: char)
  {
    'a' <= c <= 'z' || '0' <= c <= '9' || c == '-'
  }

  /** The name pattern, anchored as HTML anchors a `pattern`: one or more characters, each of them allowed. */
  predicate NameMatches(s: string)
  {
    |s| > 0 && forall i :: 0 <= i < |s| ==> NameChar(s[i])
  }

  /**
   * The same pattern run as the regular expression it is: a `+` loop over
   * the character class, consuming one character per step.
   */
  predicate PlusMatches(s: string)
    decreases |s|
  {
    |s| > 0 && NameChar(s[0]) && (|s| == 1 || PlusMatches(s[1..]))
  }

  /** Running the `+` loop accepts exactly the names the pattern describes. */
  lemma {:induction false} PlusMatchesIff(s: string)
    ensures PlusMatches(s) <==> NameMatches(s)
    decreases |s|
  {
    if |s| > 1 {
      PlusMatchesIff(s[1..]);
      if NameMatches(s) {
        assert forall i :: 0 <= i < |s| - 1 ==> s[1..][i] == s[i + 1];
      }
      if PlusMatches(s) {
        forall i | 0 <= i < |s|
          ensures NameChar(s[i])
        {
          if i > 0 {
            assert s[i] == s[1..][i - 1];
          }
        }
      }
    }
  }

  /** Some names the pattern takes and some it refuses. */
  lemma NameExamples()
    ensures NameMatches("my-app-2")
    ensures !NameMatches("") && !NameMatches("MyApp") && !NameMatches("my_app") && !NameMatches("my app")
  {
    assert !NameChar("MyApp"[0]);
    assert !NameChar("my_app"[2]);
    assert !NameChar("my app"[2]);
  }

  /** The browser's constraint validation: every field is required, and the name must match. */
  predicate FormValid(f: Form)
  {
    && f.name != "" && f.port != "" && f.gitUrl != "" && f.branch != "" && f.description != ""
    && NameMatches(f.name)
  }

  /** A value in the submitted object: a form string, or the number `parseInt` made. */
  datatype Value = Text(text: string) | Num(number: Number)

  const FieldNames: set<string> := {"name", "port", "git_url", "branch", "description"}

  /** `Object.fromEntries(formData.entries())`: each control's name to its string value. */
  function Entries(f: Form): (r: map<string, Value>)
    ensures r.Keys == FieldNames
    ensures forall k :: k in r ==> r[k].Text?
    ensures r["name"] == Text(f.name) && r["port"] == Text(f.port) && r["git_url"] == Text(f.gitUrl)
    ensures r["branch"] == Text(f.branch) && r["description"] == Text(f.description)
  {
    map["name" := Text(f.name), "port" := Text(f.port), "git_url" := Text(f.gitUrl),
        "branch" := Text(f.branch), "description" := Text(f.description)]
  }

  /** The object sent to the server. */
  function Payload(f: Form): (r: map<string, Value>)
    ensures r.Keys == FieldNames
    ensures r["port"] == Num(ParseInt(f.port))
    ensures r["name"] == Text(f.name) && r["git_url"] == Text(f.gitUrl)
    ensures r["branch"] == Text(f.branch) && r["description"] == Text(f.description)
  {
    Entries(f)["port" := Num(ParseInt(f.port))]
  }

  /** Only the port is converted: every other field goes out as the string typed in. */
  lemma OnlyPortConverted(f: Form, key: string)
    requires key in FieldNames
    ensures Payload(f)[key].Num? <==> key == "port"
    ensures key != "port" ==> Payload(f)[key] == Entries(f)[key]
  {
  }

  /**
   * A port typed as an integer is sent as that integer, also with a
   * fractional or exponent part after it, which `parseInt` stops at.
   */
  lemma PortParsed(f: Form, n: int, rest: string)
    requires f.port == IntToString(n) + rest
    requires rest == [] || !IsDigit(rest[0])
    ensures Payload(f)["port"] == Num(Int(n))
  {
    ParseIntOfIntToString(n, rest);
  }

  /** The page: where the router is, and every payload handed to the submission so far. */
  class SubmitPage {
    var location: string
    var submitted: seq<map<string, Value>>

    constructor (location: string)
      ensures this.location == location && submitted == []
    {
      this.location := location;
      submitted := [];
    }

    /**
     * `handleSubmit`: build the object, overwrite its `port` with the
     * parsed number, wait for the submission, then navigate to "/". A
     * rejected submission throws out of the handler before the navigation.
     */
    method HandleSubmit(f: Form, accepted: bool) returns (c: Completion<()>)
      modifies this
      ensures submitted == old(submitted) + [Payload(f)]
      ensures c.Normal? <==> accepted
      ensures location == if accepted then "/" else old(location)
    {
      var appData := Entries(f);
      appData := appData["port" := Num(ParseInt(f.port))];
      submitted := submitted + [appData];
      if !accepted {
        return Thrown("submission rejected");
      }
      location := "/";
      c := Normal(());
    }

    /** Pressing the submit button: the browser fires `submit` only for a valid form. */
    method Submit(f: Form, accepted: bool) returns (c: Completion<()>)
      modifies this
      ensures !FormValid(f) ==> c.Normal? && submitted == old(submitted) && location == old(location)
      ensures FormValid(f) ==> submitted == old(submitted) + [Payload(f)]
      ensures FormValid(f) ==> location == if accepted then "/" else old(location)
    {
      if !FormValid(f) {
        return Normal(());
      }
      c := HandleSubmit(f, accepted);
    }
  }
}
