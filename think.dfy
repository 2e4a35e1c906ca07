/**
 * Cleaning of a text-generation answer (rss_bot.py lines 79-80):
 * `re.sub(r'<think>.*?</think>', '', content, flags=re.DOTALL).strip()`.
 */
module Think {
  import opened Wrappers
  import opened PyStr

  const Open: string := "<think>"
  const Close: string := "</think>"

  /** `pat` occurs in `s` at index `i`. */
  predicate OccursAt(s: string, pat: string, i: nat)
  {
    i + |pat| <= |s| && s[i..i + |pat|] == pat
  }

  /** The leftmost occurrence of `pat` in `s` at or after `from` (Python's `s.find(pat, from)`). */
  function Find(s: string, pat: string, from: nat): (r: Option<nat>)
    ensures r.Some? ==> from <= r.value && OccursAt(s, pat, r.value)
    ensures forall i: nat :: from <= i && (r.None? || i < r.value) ==> !OccursAt(s, pat, i)
    decreases |s| - from
  {
    if from + |pat| > |s| then None
    else if OccursAt(s, pat, from) then Some(from)
    else Find(s, pat, from + 1)
  }

  /**
   * The regular-expression substitution: scanning from the left, each `<think>`
   * that has a later `</think>` is removed together with everything up to and
   * including the first such `</think>`; scanning resumes after it. Once a
   * `<think>` has no closing tag after it, no later one has either, so the
   * rest is copied unchanged.
   */
  function RemoveThink(s: string): (r: string)
    ensures |r| <= |s|
    decreases |s|
  {
    match Find(s, Open, 0)
    case None => s
    case Some(p) =>
      match Find(s, Close, p + |Open|)
      case None => s
      case Some(q) => s[..p] + RemoveThink(s[q + |Close|..])
  }

  /** `requests_based_llm_call`'s post-processing of a successful answer. */
  function Clean(content: string): (r: string)
    ensures r == [] || (!IsSpace(r[0]) && !IsSpace(r[|r| - 1]))
    ensures |r| <= |content|
  {
    StripSpec(RemoveThink(content));
    Strip(RemoveThink(content))
  }

  /**
   * `requests_based_llm_call` with the network abstracted: `raw` is the
   * `choices[0].message.content` field of the answer, or `None` when the call
   * raised a request, key or index error (the source returns `None` then; it
   * makes exactly one attempt).
   */
  function LlmCall(raw: Option<string>): (r: Option<string>)
    ensures r.None? <==> raw.None?
    ensures r.Some? ==> r.value == [] || (!IsSpace(r.value[0]) && !IsSpace(r.value[|r.value| - 1]))
  {
    match raw
    case None => None
    case Some(c) => Some(Clean(c))
  }

  lemma FindIs(s: string, pat: string, from: nat, j: nat)
    requires from <= j && OccursAt(s, pat, j)
    requires forall i: nat :: from <= i < j ==> !OccursAt(s, pat, i)
    ensures Find(s, pat, from) == Some(j)
  {
  }

  /** Text without any `<think>` is only stripped of surrounding whitespace. */
  lemma CleanWithoutThink(s: string)
    requires forall i: nat :: !OccursAt(s, Open, i)
    ensures RemoveThink(s) == s
    ensures Clean(s) == Strip(s)
  {
  }

  /**
   * The leftmost, shortest block is the one removed: if `a` holds no
   * `<think>` (nor does one start inside `a` and run into the tag) and `b`
   * holds no `</think>` (nor does one start inside `b` and run into the tag),
   * then `a + <think> + b + </think> + c` is cleaned to `a` followed by the
   * cleaning of `c`.
   */
  lemma {:induction false} RemoveLeftmostBlock(a: string, b: string, c: string)
    requires forall i: nat :: i < |a| ==> !OccursAt(a + Open, Open, i)
    requires forall i: nat :: i < |b| ==> !OccursAt(b + Close, Close, i)
    ensures RemoveThink(a + Open + b + Close + c) == a + RemoveThink(c)
  {
    var s := a + Open + b + Close + c;
    var p := |a|;
    var q := |a| + |Open| + |b|;
    assert s[p..p + |Open|] == Open;
    forall i: nat | i < p ensures !OccursAt(s, Open, i) {
      assert s[i..i + |Open|] == (a + Open)[i..i + |Open|];
      assert !OccursAt(a + Open, Open, i);
    }
    FindIs(s, Open, 0, p);
    assert s[q..q + |Close|] == Close;
    forall i: nat | p + |Open| <= i < q ensures !OccursAt(s, Close, i) {
      var i' := i - p - |Open|;
      assert s[i..i + |Close|] == (b + Close)[i'..i' + |Close|];
      assert !OccursAt(b + Close, Close, i');
    }
    FindIs(s, Close, p + |Open|, q);
    assert s[..p] == a;
    assert s[q + |Close|..] == c;
  }

  /**
   * An unclosed block is kept: if `a` holds no `<think>` (nor does one start
   * inside `a` and run into the tag) and no `</think>` follows the tag, the
   * pattern does not match and the text is returned unchanged.
   */
  lemma UnclosedKept(a: string, b: string)
    requires forall i: nat :: i < |a| ==> !OccursAt(a + Open, Open, i)
    requires forall i: nat :: !OccursAt(b, Close, i)
    ensures RemoveThink(a + Open + b) == a + Open + b
  {
    var s := a + Open + b;
    var p := |a|;
    assert s[p..p + |Open|] == Open;
    forall i: nat | i < p ensures !OccursAt(s, Open, i) {
      assert s[i..i + |Open|] == (a + Open)[i..i + |Open|];
      assert !OccursAt(a + Open, Open, i);
    }
    FindIs(s, Open, 0, p);
    forall i: nat | p + |Open| <= i ensures !OccursAt(s, Close, i) {
      var i' := i - p - |Open|;
      if i + |Close| <= |s| {
        assert s[i..i + |Close|] == b[i'..i' + |Close|];
        assert !OccursAt(b, Close, i');
      }
    }
    assert Find(s, Close, p + |Open|).None?;
  }

  /** A well-formed leading reasoning block and the spaces around the answer disappear. */
  lemma CleanDropsReasoning(b: string, answer: string)
    requires forall i: nat :: i < |b| ==> !OccursAt(b + Close, Close, i)
    requires forall i: nat :: !OccursAt(answer, Open, i)
    ensures Clean(Open + b + Close + answer) == Strip(answer)
  {
    var e: string := [];
    assert e + Open + b + Close + answer == Open + b + Close + answer;
    RemoveLeftmostBlock(e, b, answer);
    CleanWithoutThink(answer);
    assert e + answer == answer;
  }
}
