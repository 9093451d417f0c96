/** Scripts generated for a round: content, the roles to perform, the
    personality that produced them, and the derived word count and duration. */
module Scripts {
  import opened Common

  datatype Role = Role(name: string, description: string, lines: seq<string> := [])

  datatype Script = Script(
    content: string,
    roles: seq<Role>,
    personality: string,
    estimatedDuration: int,
    wordCount: int,
    generatedAt: Instant)
  {
    /** `get_role_count`: how many roles the script has. */
    function RoleCount(): nat
    {
      |roles|
    }
  }

  /** The scripts construction can produce: every one has at least one role. */
  type ValidScript = s: Script | s.roles != []
    witness Script("", [Role("", "")], "", 0, 0, 0.0)

  /** The characters `str.split()` treats as separators, restricted to ASCII:
      space, tab, line feed, vertical tab, form feed, carriage return and the
      four information separators 0x1C-0x1F. */
  predicate IsSpace(c: char)
  {
    c == ' ' || c == '\t' || c == '\n' || c == '\U{0B}' || c == '\U{0C}' || c == '\r'
    || ('\U{1C}' <= c <= '\U{1F}')
  }

  /** Length of the run of non-space characters at the start of `s`. */
  function WordLength(s: string): (n: nat)
    ensures n <= |s|
    ensures forall k :: 0 <= k < n ==> !IsSpace(s[k])
    ensures n < |s| ==> IsSpace(s[n])
  {
    if |s| == 0 || IsSpace(s[0]) then 0 else 1 + WordLength(s[1..])
  }

  /** `s.split()`: the maximal runs of non-space characters, in order. */
  function Split(s: string): (words: seq<string>)
    ensures forall w :: w in words ==> |w| > 0 && forall c :: c in w ==> !IsSpace(c)
    decreases |s|
  {
    if |s| == 0 then []
    else if IsSpace(s[0]) then Split(s[1..])
    else
      var n := WordLength(s);
      [s[..n]] + Split(s[n..])
  }

  /** Independent count of words: a word starts at each non-space character
      that follows a space or the start of the text (`afterSpace` says which). */
  function WordStarts(s: string, afterSpace: bool): nat
  {
    if |s| == 0 then 0
    else (if afterSpace && !IsSpace(s[0]) then 1 else 0) + WordStarts(s[1..], IsSpace(s[0]))
  }

  /** Inside a word no new word starts. */
  lemma {:induction false} WordStartsSkipsWord(s: string, n: nat)
    requires n <= |s|
    requires forall k :: 0 <= k < n ==> !IsSpace(s[k])
    ensures WordStarts(s, false) == WordStarts(s[n..], false)
  {
    if n > 0 {
      assert s[1..][n - 1..] == s[n..];
      WordStartsSkipsWord(s[1..], n - 1);
    }
  }

  /** `len(s.split())` counts word starts: splitting neither merges nor breaks words. */
  lemma {:induction false} SplitCountsWordStarts(s: string)
    ensures |Split(s)| == WordStarts(s, true)
    decreases |s|
  {
    if |s| == 0 {
    } else if IsSpace(s[0]) {
      SplitCountsWordStarts(s[1..]);
    } else {
      var n := WordLength(s);
      SplitCountsWordStarts(s[n..]);
      WordStartsSkipsWord(s[1..], n - 1);
      assert s[1..][n - 1..] == s[n..];
      if n < |s| {
        assert WordStarts(s[n..], false) == WordStarts(s[n..], true);
      }
    }
  }

  /** Python's `int(words / 2.5)`: seconds to speak `words` words at 150 words a
      minute, truncated toward zero (so a negative count gives a non-positive time). */
  function DurationFor(words: int): int
  {
    if words >= 0 then (2 * words) / 5 else -((-2 * words) / 5)
  }

  /** The duration is the quotient 2*words/5 rounded toward zero. */
  lemma DurationIsTruncatedQuotient(words: int)
    ensures words >= 0 ==> 0 <= 5 * DurationFor(words) <= 2 * words < 5 * DurationFor(words) + 5
    ensures words < 0 ==> 5 * DurationFor(words) - 5 < 2 * words <= 5 * DurationFor(words) <= 0
    ensures DurationFor(150) == 60
  {
  }

  /** More words never mean a shorter estimate. */
  lemma DurationMonotone(w1: int, w2: int)
    requires w1 <= w2
    ensures DurationFor(w1) <= DurationFor(w2)
  {
  }

  /** Script construction: rejects an empty role list, then fills in the word
      count from the content and the duration from the word count when the
      caller left them 0. */
  function NewScript(content: string, roles: seq<Role>, personality: string, generatedAt: Instant,
                     estimatedDuration: int := 0, wordCount: int := 0): (r: Result<ValidScript, DomainError>)
    ensures r.Failure? <==> roles == []
    ensures r.Failure? ==> r.error == NoRoles
    ensures r.Success? ==>
      && r.value.content == content && r.value.roles == roles
      && r.value.personality == personality && r.value.generatedAt == generatedAt
      && r.value.RoleCount() >= 1
      && r.value.wordCount == (if wordCount == 0 then WordStarts(content, true) else wordCount)
      && r.value.estimatedDuration
         == (if estimatedDuration == 0 then DurationFor(r.value.wordCount) else estimatedDuration)
  {
    if roles == [] then Failure(NoRoles)
    else
      var words := if wordCount == 0 then |Split(content)| else wordCount;
      var seconds := if estimatedDuration == 0 then DurationFor(words) else estimatedDuration;
      SplitCountsWordStarts(content);
      Success(Script(content, roles, personality, seconds, words, generatedAt))
  }

  /** A script whose caller supplied neither figure is built, and its estimate
      is non-negative and at most 0.4 s a counted word. */
  lemma DerivedDurationBounds(content: string, roles: seq<Role>, personality: string, at: Instant)
    requires roles != []
    ensures NewScript(content, roles, personality, at).Success?
    ensures var s := NewScript(content, roles, personality, at).value;
      0 <= 5 * s.estimatedDuration <= 2 * s.wordCount
  {
  }

  /** A word followed by a space splits off as the first token. */
  lemma SplitLeadingWord(w: string, rest: string)
    requires |w| > 0 && forall c :: c in w ==> !IsSpace(c)
    ensures Split(w + " " + rest) == [w] + Split(rest)
  {
    var s := w + " " + rest;
    var n := WordLength(s);
    assert s[|w|] == ' ';
    assert forall k :: 0 <= k < |w| ==> s[k] == w[k];
    assert s[..n] == w;
    assert s[n..] == " " + rest;
    assert (" " + rest)[1..] == rest;
  }

  /** A single word splits into itself. */
  lemma SplitSingleWord(w: string)
    requires |w| > 0 && forall c :: c in w ==> !IsSpace(c)
    ensures Split(w) == [w]
  {
    assert forall k :: 0 <= k < |w| ==> w[k] in w;
    assert WordLength(w) == |w|;
    assert w[..|w|] == w;
  }

  /** Words joined by single spaces, as `" ".join(words)`. */
  function Join(words: seq<string>): string
  {
    if |words| == 0 then ""
    else if |words| == 1 then words[0]
    else words[0] + " " + Join(words[1..])
  }

  /** Splitting undoes joining: non-empty words without spaces, joined by single
      spaces, split back into exactly those words (so ten such words count 10). */
  lemma {:induction false} SplitJoinRoundTrip(words: seq<string>)
    requires forall w :: w in words ==> |w| > 0 && forall c :: c in w ==> !IsSpace(c)
    ensures Split(Join(words)) == words
  {
    if |words| == 1 {
      SplitSingleWord(words[0]);
    } else if |words| > 1 {
      assert words[0] in words;
      SplitLeadingWord(words[0], Join(words[1..]));
      SplitJoinRoundTrip(words[1..]);
    }
  }
}
