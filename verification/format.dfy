/** The part of Python's `str.format` that sentence generation relies on:
    literal text, doubled braces, automatically numbered `{}` fields filled from
    the positional arguments, and `{name}` fields filled from the keyword
    arguments. Substituted values are copied verbatim and never re-scanned. */
module StrFormat {
  import opened Wrappers

  /** Why a format string could not be filled. */
  datatype FormatError =
    | UnmatchedOpen              // a `{` with no field after it
    | UnmatchedClose             // a single `}` outside a field
    | MissingIndex(index: nat)   // an automatic field beyond the positional arguments
    | MissingKey(name: string)   // a named field with no keyword argument

  /** True if `s` contains neither brace, so formatting copies it unchanged. */
  predicate NoBraces(s: string) {
    '{' !in s && '}' !in s
  }

  /** `r` with `p` put in front of its text; a failure passes through. */
  function Prepend(p: string, r: Result<string, FormatError>): Result<string, FormatError> {
    match r
    case Success(v) => Success(p + v)
    case Failure(_) => r
  }

  /** The position of the first brace of `s` at or after `i`, if there is one. */
  function NextBrace(s: string, i: nat): (r: Option<nat>)
    requires i <= |s|
    ensures r.Some? ==> i <= r.value < |s| && (s[r.value] == '{' || s[r.value] == '}')
    ensures r.Some? ==> NoBraces(s[i..r.value])
    ensures r.None? ==> NoBraces(s[i..])
    decreases |s| - i
  {
    if i == |s| then None
    else if s[i] == '{' || s[i] == '}' then Some(i)
    else
      var r := NextBrace(s, i + 1);
      assert s[i..] == [s[i]] + s[i + 1..];
      assert r.Some? ==> s[i..r.value] == [s[i]] + s[i + 1..r.value];
      r
  }

  /** Fills the fields of `s`; `next` is the number of automatic fields already used. */
  function Fill(s: string, args: seq<string>, kwargs: map<string, string>, next: nat): Result<string, FormatError>
    decreases |s|, 1
  {
    if |s| == 0 then Success("")
    else if s[0] == '{' && |s| > 1 && s[1] == '{' then Prepend("{", Fill(s[2..], args, kwargs, next))
    else if s[0] == '{' then FillField(s, args, kwargs, next)
    else if s[0] == '}' && |s| > 1 && s[1] == '}' then Prepend("}", Fill(s[2..], args, kwargs, next))
    else if s[0] == '}' then Failure(UnmatchedClose)
    else Prepend(s[..1], Fill(s[1..], args, kwargs, next))
  }

  /** Fills the replacement field that `s` starts with, then the rest of `s`. */
  function FillField(s: string, args: seq<string>, kwargs: map<string, string>, next: nat): Result<string, FormatError>
    requires |s| > 0 && s[0] == '{'
    decreases |s|, 0
  {
    match NextBrace(s, 1)
    case None => Failure(UnmatchedOpen)
    case Some(j) =>
      if s[j] == '{' then Failure(UnmatchedOpen)
      else
        var name := s[1..j];
        if name == "" then
          if next < |args| then Prepend(args[next], Fill(s[j + 1..], args, kwargs, next + 1))
          else Failure(MissingIndex(next))
        else if name in kwargs then Prepend(kwargs[name], Fill(s[j + 1..], args, kwargs, next))
        else Failure(MissingKey(name))
  }

  /** `s.format(*args, **kwargs)`. */
  function Format(s: string, args: seq<string>, kwargs: map<string, string>): Result<string, FormatError> {
    Fill(s, args, kwargs, 0)
  }

  /** A character other than a brace is copied and the scan moves on. */
  lemma FillPlain(s: string, args: seq<string>, kwargs: map<string, string>, next: nat)
    requires |s| > 0 && s[0] != '{' && s[0] != '}'
    ensures Fill(s, args, kwargs, next) == Prepend(s[..1], Fill(s[1..], args, kwargs, next))
  {
  }

  /** Brace-free text is copied to the output unchanged. */
  lemma {:induction false} FillLiteral(a: string, b: string, args: seq<string>, kwargs: map<string, string>, next: nat)
    requires NoBraces(a)
    ensures Fill(a + b, args, kwargs, next) == Prepend(a, Fill(b, args, kwargs, next))
    decreases |a|
  {
    var tail := Fill(b, args, kwargs, next);
    if |a| == 0 {
      assert a + b == b;
      if tail.Success? {
        assert a + tail.value == tail.value;
      }
    } else {
      assert a[0] in a;
      var s := a + b;
      assert s[0] == a[0];
      assert s[..1] == a[..1];
      assert s[1..] == a[1..] + b;
      FillPlain(s, args, kwargs, next);
      assert NoBraces(a[1..]) by {
        assert forall c :: c in a[1..] ==> c in a;
      }
      FillLiteral(a[1..], b, args, kwargs, next);
      if tail.Success? {
        assert a[..1] + (a[1..] + tail.value) == a + tail.value;
      }
    }
  }

  /** An automatic field takes the next positional argument. */
  lemma FillAuto(rest: string, args: seq<string>, kwargs: map<string, string>, next: nat)
    requires next < |args|
    ensures Fill("{}" + rest, args, kwargs, next) == Prepend(args[next], Fill(rest, args, kwargs, next + 1))
  {
    var s := "{}" + rest;
    assert s[0] == '{' && s[1] == '}';
    assert NextBrace(s, 1) == Some(1);
    assert s[1..1] == "";
    assert s[2..] == rest;
  }

  /** A named field takes the keyword argument of that name. */
  lemma FillKey(name: string, rest: string, args: seq<string>, kwargs: map<string, string>, next: nat)
    requires name != "" && NoBraces(name) && name in kwargs
    ensures Fill("{" + name + "}" + rest, args, kwargs, next) == Prepend(kwargs[name], Fill(rest, args, kwargs, next))
  {
    var s := "{" + name + "}" + rest;
    var j := |name| + 1;
    assert s[0] == '{' && s[1] == name[0] && name[0] != '{';
    assert s[j] == '}';
    assert s[1..j] == name;
    NextBraceAt(s, 1, j);
    assert s[j + 1..] == rest;
  }

  /** The next brace is found where it is when brace-free text precedes it. */
  lemma {:induction false} NextBraceAt(s: string, i: nat, j: nat)
    requires i <= j < |s| && NoBraces(s[i..j]) && (s[j] == '{' || s[j] == '}')
    ensures NextBrace(s, i) == Some(j)
    decreases j - i
  {
    if i < j {
      assert s[i] in s[i..j];
      assert s[i + 1..j] == s[i..j][1..];
      assert forall c :: c in s[i + 1..j] ==> c in s[i..j];
      NextBraceAt(s, i + 1, j);
    }
  }

  /** A format string with two automatic fields between brace-free text is
      filled with its two positional arguments in order. */
  lemma FormatTwoFields(lead: string, link: string, x: string, y: string)
    requires NoBraces(lead) && NoBraces(link)
    ensures Format(lead + "{}" + link + "{}", [x, y], map[]) == Success(lead + x + link + y)
  {
    var args := [x, y];
    var kw: map<string, string> := map[];
    assert lead + "{}" + link + "{}" == lead + ("{}" + (link + "{}"));
    FillLiteral(lead, "{}" + (link + "{}"), args, kw, 0);
    FillAuto(link + "{}", args, kw, 0);
    FillLiteral(link, "{}", args, kw, 1);
    assert "{}" == "{}" + "";
    FillAuto("", args, kw, 1);
    assert lead + (x + (link + (y + ""))) == lead + x + link + y;
  }

  /** A format string with two named fields between brace-free text is filled
      with the two keyword arguments in order. */
  lemma FormatTwoKeys(lead: string, k1: string, link: string, k2: string, kwargs: map<string, string>)
    requires NoBraces(lead) && NoBraces(link)
    requires k1 != "" && NoBraces(k1) && k1 in kwargs
    requires k2 != "" && NoBraces(k2) && k2 in kwargs
    ensures Format(lead + "{" + k1 + "}" + link + "{" + k2 + "}", [], kwargs)
         == Success(lead + kwargs[k1] + link + kwargs[k2])
  {
    var args: seq<string> := [];
    var f2 := "{" + k2 + "}";
    var f1 := "{" + k1 + "}";
    assert lead + "{" + k1 + "}" + link + "{" + k2 + "}" == lead + (f1 + (link + f2));
    FillLiteral(lead, f1 + (link + f2), args, kwargs, 0);
    assert f1 + (link + f2) == "{" + k1 + "}" + (link + f2);
    FillKey(k1, link + f2, args, kwargs, 0);
    FillLiteral(link, f2, args, kwargs, 0);
    assert f2 == "{" + k2 + "}" + "";
    FillKey(k2, "", args, kwargs, 0);
    assert lead + (kwargs[k1] + (link + (kwargs[k2] + ""))) == lead + kwargs[k1] + link + kwargs[k2];
  }
}
