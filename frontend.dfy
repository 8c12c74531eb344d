/**
  The two pieces of the Streamlit front end that compute something: how the
  typed text becomes a request to the back end, and the suggested
  combinations shown when both words have synonyms.
 */
module Frontend {
  import opened Wrappers
  import opened Text

  /** What pressing "Find Synonyms" leads to. */
  datatype Submission =
    | Rejected(message: string)      // nothing typed: an error is shown, no request
    | Errored(message: string)       // the handler raised before any request
    | Lookup(word: string, secondWord: Option<string>)   // the back end is asked

  const EmptyInputMessage: string := "Please enter at least one word"
  const HandlerErrorMessage: string := "An error occurred while processing your request. Please try again."

  /** The submit handler up to the request: an empty text is rejected; the
      text is split on whitespace, the first token is the word and the second,
      when there is one, the second word; an all-whitespace text has no first
      token, and the `IndexError` is reported by the handler's `except`. */
  function Submit(text: string): (r: Submission)
    ensures r.Rejected? <==> text == []
    ensures r.Rejected? ==> r.message == EmptyInputMessage
    ensures r.Errored? ==> r.message == HandlerErrorMessage
  {
    if text == [] then Rejected(EmptyInputMessage)
    else
      var words := Split(text);
      if words == [] then Errored(HandlerErrorMessage)
      else if |words| > 1 then Lookup(Strip(words[0]), Some(Strip(words[1])))
      else Lookup(Strip(words[0]), None)
  }

  /** A request is made exactly when the text has a non-whitespace character. */
  lemma SubmitLooksUp(text: string)
    ensures Submit(text).Lookup? <==> exists i :: 0 <= i < |text| && !IsSpace(text[i])
  {
    SplitEmpty(text);
  }

  /** The word and second word are the first two tokens, unchanged by the
      `strip()` applied to them, so non-empty and free of whitespace; any
      further tokens are ignored. */
  lemma SubmitTokens(text: string)
    requires Submit(text).Lookup?
    ensures Submit(text).word == Split(text)[0]
    ensures Submit(text).secondWord == if |Split(text)| > 1 then Some(Split(text)[1]) else None
    ensures Submit(text).word != [] && NoSpace(Submit(text).word)
    ensures Submit(text).secondWord.Some? ==>
      Submit(text).secondWord.value != [] && NoSpace(Submit(text).secondWord.value)
  {
    var words := Split(text);
    SplitTokens(text);
    StripStripped(words[0]);
    if |words| > 1 {
      StripStripped(words[1]);
    }
  }

  /** A single word is looked up alone. */
  lemma SubmitWord(w: string)
    requires w != [] && NoSpace(w)
    ensures Submit(w) == Lookup(w, None)
  {
    SplitWord(w);
    StripStripped(w);
  }

  /** "fast car" looks up "fast" with "car" as the second word. */
  lemma SubmitPhrase(a: string, b: string)
    requires a != [] && NoSpace(a) && b != [] && NoSpace(b)
    ensures Submit(a + [' '] + b) == Lookup(a, Some(b))
  {
    SplitPair(a, b);
    StripStripped(a);
    StripStripped(b);
  }

  /** `xs[:n]` */
  function Take(xs: seq<string>, n: nat): (r: seq<string>)
    ensures |r| == Min(n, |xs|) && r == xs[..|r|]
  {
    xs[..Min(n, |xs|)]
  }

  /** `f"{x} {y}"` for every `y` in `ys`, in order. */
  function Row(x: string, ys: seq<string>): (r: seq<string>)
    ensures |r| == |ys| && forall j :: 0 <= j < |ys| ==> r[j] == x + " " + ys[j]
  {
    seq(|ys|, j requires 0 <= j < |ys| => x + " " + ys[j])
  }

  lemma MulSucc(a: nat, b: nat)
    ensures (a + 1) * b == a * b + b
  {
  }

  /** The nested comprehension: every `x` of `xs`, in order, paired with
      every `y` of `ys`, in order. */
  function Pairs(xs: seq<string>, ys: seq<string>): (r: seq<string>)
    ensures |r| == |xs| * |ys|
  {
    if xs == [] then []
    else
      MulSucc(|xs| - 1, |ys|);
      Row(xs[0], ys) + Pairs(xs[1..], ys)
  }

  /** Entry `i * |ys| + j` pairs `xs[i]` with `ys[j]`: `xs` is the outer loop. */
  lemma {:induction false} PairsAt(xs: seq<string>, ys: seq<string>, i: nat, j: nat)
    requires i < |xs| && j < |ys|
    ensures i * |ys| + j < |Pairs(xs, ys)|
    ensures Pairs(xs, ys)[i * |ys| + j] == xs[i] + " " + ys[j]
  {
    if i > 0 {
      PairsAt(xs[1..], ys, i - 1, j);
      MulSucc(i - 1, |ys|);
    }
  }

  /** The pairs are exactly the strings "x y" for `x` in `xs` and `y` in `ys`. */
  lemma {:induction false} PairsMembers(xs: seq<string>, ys: seq<string>, s: string)
    ensures s in Pairs(xs, ys) <==>
      exists i, j :: 0 <= i < |xs| && 0 <= j < |ys| && s == xs[i] + " " + ys[j]
  {
    if xs != [] {
      PairsMembers(xs[1..], ys, s);
      if s in Pairs(xs[1..], ys) {
        var i, j :| 0 <= i < |xs[1..]| && 0 <= j < |ys| && s == xs[1..][i] + " " + ys[j];
        assert s == xs[i + 1] + " " + ys[j];
      }
      if exists i, j :: 0 <= i < |xs| && 0 <= j < |ys| && s == xs[i] + " " + ys[j] {
        var i, j :| 0 <= i < |xs| && 0 <= j < |ys| && s == xs[i] + " " + ys[j];
        if i == 0 {
          assert s == Row(xs[0], ys)[j];
        } else {
          assert s == xs[1..][i - 1] + " " + ys[j];
        }
      }
    }
  }

  /** `display_suggestions`: the first three synonyms of the word each
      followed by a space and one of the first three of the second word. */
  function Suggestions(first: seq<string>, second: seq<string>): (r: seq<string>)
    ensures |r| == Min(3, |first|) * Min(3, |second|)
  {
    Pairs(Take(first, 3), Take(second, 3))
  }

  /** There are never more than nine suggestions. */
  lemma SuggestionsCount(first: seq<string>, second: seq<string>)
    ensures |Suggestions(first, second)| <= 9
  {
    var a := Min(3, |first|);
    var b := Min(3, |second|);
    assert a == 0 || a == 1 || a == 2 || a == 3;
    assert b == 0 || b == 1 || b == 2 || b == 3;
  }

  /** Suggestion `i * n + j`, `n` being the number of second-word synonyms
      used, is the `i`-th synonym of the word and the `j`-th of the second. */
  lemma SuggestionsAt(first: seq<string>, second: seq<string>, i: nat, j: nat)
    requires i < Min(3, |first|) && j < Min(3, |second|)
    ensures i * Min(3, |second|) + j < |Suggestions(first, second)|
    ensures Suggestions(first, second)[i * Min(3, |second|) + j] == first[i] + " " + second[j]
  {
    PairsAt(Take(first, 3), Take(second, 3), i, j);
  }

  /** A suggestion is "x y" exactly when `x` is among the first three
      synonyms of the word and `y` among the first three of the second. */
  lemma SuggestionsMembers(first: seq<string>, second: seq<string>, s: string)
    ensures s in Suggestions(first, second) <==>
      exists i, j :: 0 <= i < Min(3, |first|) && 0 <= j < Min(3, |second|) && s == first[i] + " " + second[j]
  {
    var xs := Take(first, 3);
    var ys := Take(second, 3);
    PairsMembers(xs, ys, s);
    if exists i, j :: 0 <= i < |xs| && 0 <= j < |ys| && s == xs[i] + " " + ys[j] {
      var i, j :| 0 <= i < |xs| && 0 <= j < |ys| && s == xs[i] + " " + ys[j];
      assert s == first[i] + " " + second[j];
    }
    if exists i, j :: 0 <= i < Min(3, |first|) && 0 <= j < Min(3, |second|) && s == first[i] + " " + second[j] {
      var i, j :| 0 <= i < Min(3, |first|) && 0 <= j < Min(3, |second|) && s == first[i] + " " + second[j];
      assert s == xs[i] + " " + ys[j];
    }
  }
}
