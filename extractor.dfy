/** The code extractor (`extract_python_code`): the first block fenced as
    "```python" ... "```" wins and is returned stripped; without one, the whole
    response is taken when it carries one of the tokens "hsf =" or "catia.";
    otherwise there is no code. */
module Extractor {
  import opened Wrappers
  import opened Text

  const Opener: string := "```python"
  const Closer: string := "```"
  const HsfToken: string := "hsf ="
  const CatiaToken: string := "catia."

  /** The regular expression ```python(.*?)``` (with DOTALL, so a newline is an
      ordinary character) matches starting at `i` with its lazy group ending
      at `k`: the opener is at `i`, a closer is at `k` at or after the end of
      the opener, and no closer starts in between. */
  ghost predicate MatchAt(text: string, i: int, k: int)
  {
    OccursAt(text, Opener, i) && i + |Opener| <= k && OccursAt(text, Closer, k) &&
    forall p :: i + |Opener| <= p < k ==> !OccursAt(text, Closer, p)
  }

  /** The regular expression can match starting at `i`. */
  ghost predicate MatchesAt(text: string, i: int)
  {
    exists k :: MatchAt(text, i, k)
  }

  /** `re.search` finds a match somewhere in `text`. */
  ghost predicate HasFence(text: string)
  {
    exists i :: MatchesAt(text, i)
  }

  /** A located fence: where its opener and its closer start. */
  datatype Fence = Fence(start: nat, close: nat)

  /** The group of a located fence: the text strictly between opener and closer. */
  function FenceBody(text: string, f: Fence): string
    requires f.start + |Opener| <= f.close <= |text|
  {
    text[f.start + |Opener|..f.close]
  }

  /** What `re.search` returns: the leftmost starting position at which the
      expression matches, with the lazy group ending at the nearest closer. */
  function FindFence(text: string): (r: Option<Fence>)
    ensures r.Some? ==> MatchAt(text, r.value.start, r.value.close)
    ensures r.Some? ==> forall i :: 0 <= i < r.value.start ==> !MatchesAt(text, i)
    ensures r.None? <==> !HasFence(text)
  {
    match FindFrom(text, Opener, 0)
    case None => None
    case Some(i) =>
      match FindFrom(text, Closer, i + |Opener|)
      case None =>
        NoFenceAfterOpenerWithoutCloser(text, i);
        None
      case Some(k) =>
        assert MatchAt(text, i, k) && MatchesAt(text, i);
        Some(Fence(i, k))
  }

  /** When the first opener has no closer after it, no later opener can have
      one either, so the search fails as a whole. */
  lemma NoFenceAfterOpenerWithoutCloser(text: string, i: nat)
    requires FindFrom(text, Opener, 0) == Some(i)
    requires FindFrom(text, Closer, i + |Opener|).None?
    ensures !HasFence(text)
  {
  }

  /** Python's `"hsf =" in text or "catia." in text`: one of the two
      tokens occurs somewhere in the text. */
  predicate HasCodeToken(text: string): (r: bool)
    ensures r <==> (exists j :: OccursAt(text, HsfToken, j)) || (exists j :: OccursAt(text, CatiaToken, j))
  {
    Contains(text, HsfToken) || Contains(text, CatiaToken)
  }

  /** `extract_python_code`. The result is absent exactly when there is
      neither a complete fence nor a code token, and the unfenced branch
      returns the response unchanged. */
  function ExtractPythonCode(text: string): (r: Option<string>)
    ensures r.None? <==> !HasFence(text) && !HasCodeToken(text)
    ensures r.Some? && !HasFence(text) ==> r.value == text
  {
    match FindFence(text)
    case Some(f) => Some(Strip(FenceBody(text, f)))
    case None => if HasCodeToken(text) then Some(text) else None
  }

  /** The group of a match contains no closer. */
  lemma BodyHasNoCloser(text: string, f: Fence)
    requires MatchAt(text, f.start, f.close)
    ensures !Contains(FenceBody(text, f), Closer)
  {
    var body := FenceBody(text, f);
    var a := f.start + |Opener|;
    if Contains(body, Closer) {
      var j :| OccursAt(body, Closer, j);
      assert OccursAt(text, body, a) by {
        assert text[a..a + |body|] == body;
      }
      OccursInInfix(text, body, a, Closer, j);
      assert false;
    }
  }

  /** A piece of a string free of `pat` is free of `pat`. */
  lemma InfixAvoids(s: string, r: string, pat: string)
    requires IsInfix(r, s) && !Contains(s, pat)
    ensures !Contains(r, pat)
  {
    if Contains(r, pat) {
      var a :| OccursAt(s, r, a);
      var j :| OccursAt(r, pat, j);
      OccursInInfix(s, r, a, pat, j);
      assert false;
    }
  }

  /** If "```python" first occurs at `i` and the nearest "```" starting at or
      after its end is at `k`, the extracted code is exactly the stripped text
      between them, whatever else the response contains. */
  lemma {:induction false} FencedResult(text: string, i: nat, k: nat)
    requires OccursAt(text, Opener, i)
    requires forall j :: 0 <= j < i ==> !OccursAt(text, Opener, j)
    requires i + |Opener| <= k && OccursAt(text, Closer, k)
    requires forall p :: i + |Opener| <= p < k ==> !OccursAt(text, Closer, p)
    ensures ExtractPythonCode(text) == Some(Strip(text[i + |Opener|..k]))
  {
    assert MatchAt(text, i, k);
    assert MatchesAt(text, i);
    var f := FindFence(text).value;
    assert f.start == i by {
      assert OccursAt(text, Opener, f.start);
    }
    MatchCloseUnique(text, i, k, f.close);
  }

  /** For a given start, the lazy group can end in one place only. */
  lemma MatchCloseUnique(text: string, i: int, k: int, k': int)
    requires MatchAt(text, i, k) && MatchAt(text, i, k')
    ensures k == k'
  {
  }

  /** Code taken from a fence contains no "```", has no whitespace at either
      end, and differs from the raw response: the fence takes precedence over
      the token fallback. */
  lemma FencedResultIsClean(text: string)
    requires HasFence(text)
    ensures ExtractPythonCode(text).Some?
    ensures !Contains(ExtractPythonCode(text).value, Closer)
    ensures ExtractPythonCode(text).value != text
    ensures var c := ExtractPythonCode(text).value;
            c == [] || (!IsSpace(c[0]) && !IsSpace(c[|c| - 1]))
  {
    var f := FindFence(text).value;
    var body := FenceBody(text, f);
    var code := Strip(body);
    assert ExtractPythonCode(text) == Some(code);
    BodyHasNoCloser(text, f);
    InfixAvoids(body, code, Closer);
    RawTextHasCloser(text, f);
  }

  /** The raw text of a match contains the closer the match ends with. */
  lemma RawTextHasCloser(text: string, f: Fence)
    requires MatchAt(text, f.start, f.close)
    ensures Contains(text, Closer)
  {
  }
}
