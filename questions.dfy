/**
 * The question bank of the quiz page (app.py): question records, the
 * category/difficulty filter `filter_quizzes`, and the shuffle that orders a
 * working list.
 */
module Questions {
  import opened Wrappers

  /** One bank entry. `category` and `difficulty` are read with a dictionary
      lookup that yields `None` when the key is absent, so they are optional. */
  datatype Question = Question(
    question: string,
    options: seq<string>,
    answer: string,
    category: Option<string>,
    difficulty: Option<string>)

  /** The filter value that lets every question through. */
  const ALL := "Toutes"

  /** A question passes the filters when each one is `ALL` or equals its field. */
  predicate Matches(q: Question, category: string, difficulty: string) {
    && (category == ALL || q.category == Some(category))
    && (difficulty == ALL || q.difficulty == Some(difficulty))
  }

  /** `r` is obtained from `s` by deleting elements, keeping the order of the rest. */
  ghost predicate IsSubsequence<T>(r: seq<T>, s: seq<T>)
    decreases |s|
  {
    if r == [] then true
    else if s == [] then false
    else if r[0] == s[0] then IsSubsequence(r[1..], s[1..])
    else IsSubsequence(r, s[1..])
  }

  /** The list comprehension that keeps the questions of one category. */
  function KeepCategory(qs: seq<Question>, category: string): seq<Question> {
    if qs == [] then []
    else if qs[0].category == Some(category) then [qs[0]] + KeepCategory(qs[1..], category)
    else KeepCategory(qs[1..], category)
  }

  /** The list comprehension that keeps the questions of one difficulty. */
  function KeepDifficulty(qs: seq<Question>, difficulty: string): seq<Question> {
    if qs == [] then []
    else if qs[0].difficulty == Some(difficulty) then [qs[0]] + KeepDifficulty(qs[1..], difficulty)
    else KeepDifficulty(qs[1..], difficulty)
  }

  /** `filter_quizzes`: first by category, then by difficulty, each skipped when
      its filter is `ALL`. With both filters `ALL` the bank comes back as it is. */
  function FilterQuizzes(all: seq<Question>, category: string, difficulty: string): (r: seq<Question>)
    ensures category == ALL && difficulty == ALL ==> r == all
  {
    var byCategory := if category != ALL then KeepCategory(all, category) else all;
    if difficulty != ALL then KeepDifficulty(byCategory, difficulty) else byCategory
  }

  /** Reference definition of the filter: one pass with both tests at once. It
      keeps every copy of each matching question and nothing else, in order. */
  function Matching(qs: seq<Question>, category: string, difficulty: string): (r: seq<Question>)
    ensures forall q :: multiset(r)[q] == if Matches(q, category, difficulty) then multiset(qs)[q] else 0
    ensures forall i :: 0 <= i < |r| ==> Matches(r[i], category, difficulty)
    ensures IsSubsequence(r, qs)
  {
    if qs == [] then []
    else
      var rest := Matching(qs[1..], category, difficulty);
      assert qs == [qs[0]] + qs[1..];
      if Matches(qs[0], category, difficulty) then
        var r := [qs[0]] + rest;
        assert r[1..] == rest;
        r
      else
        rest
  }

  lemma {:induction false} MatchingEverything(qs: seq<Question>)
    ensures Matching(qs, ALL, ALL) == qs
  {
    if qs != [] {
      MatchingEverything(qs[1..]);
    }
  }

  lemma {:induction false} KeepCategoryIsMatching(qs: seq<Question>, category: string)
    requires category != ALL
    ensures KeepCategory(qs, category) == Matching(qs, category, ALL)
  {
    if qs != [] {
      KeepCategoryIsMatching(qs[1..], category);
    }
  }

  lemma {:induction false} KeepDifficultyAfterMatching(qs: seq<Question>, category: string, difficulty: string)
    requires difficulty != ALL
    ensures KeepDifficulty(Matching(qs, category, ALL), difficulty) == Matching(qs, category, difficulty)
  {
    if qs != [] {
      KeepDifficultyAfterMatching(qs[1..], category, difficulty);
      var rest := Matching(qs[1..], category, ALL);
      if Matches(qs[0], category, ALL) {
        var s := [qs[0]] + rest;
        assert s[0] == qs[0] && s[1..] == rest;
      }
    }
  }

  /** The two successive comprehensions of `filter_quizzes` select exactly what
      the one-pass reference selects. */
  lemma {:induction false} FilterIsMatching(all: seq<Question>, category: string, difficulty: string)
    ensures FilterQuizzes(all, category, difficulty) == Matching(all, category, difficulty)
  {
    if category != ALL {
      KeepCategoryIsMatching(all, category);
    } else {
      MatchingEverything(all);
    }
    if difficulty != ALL {
      KeepDifficultyAfterMatching(all, category, difficulty);
    }
  }

  /** What `filter_quizzes` promises: an order-preserving selection whose every
      element matches both filters and which drops no matching question. */
  lemma FilterKeepsExactlyTheMatches(all: seq<Question>, category: string, difficulty: string)
    ensures IsSubsequence(FilterQuizzes(all, category, difficulty), all)
    ensures forall i :: 0 <= i < |FilterQuizzes(all, category, difficulty)| ==>
              Matches(FilterQuizzes(all, category, difficulty)[i], category, difficulty)
    ensures forall q :: q in all && Matches(q, category, difficulty) ==> q in FilterQuizzes(all, category, difficulty)
    ensures forall q :: multiset(FilterQuizzes(all, category, difficulty))[q] ==
              if Matches(q, category, difficulty) then multiset(all)[q] else 0
  {
    FilterIsMatching(all, category, difficulty);
    var r := FilterQuizzes(all, category, difficulty);
    forall q | q in all && Matches(q, category, difficulty) ensures q in r {
      assert multiset(all)[q] > 0;
      assert multiset(r)[q] > 0;
    }
  }

  /** The filtered bank is empty exactly when no question of the bank matches. */
  lemma {:induction false} MatchingEmptyIffNoMatch(all: seq<Question>, category: string, difficulty: string)
    ensures Matching(all, category, difficulty) == [] <==>
              forall i :: 0 <= i < |all| ==> !Matches(all[i], category, difficulty)
  {
  }

  /** The list a new session is drawn from: the filtered bank when some
      question matches the filters, the whole bank when none does. */
  function Pool(all: seq<Question>, category: string, difficulty: string): (r: seq<Question>)
    ensures r == [] <==> all == []
    ensures r == all || forall i :: 0 <= i < |r| ==> Matches(r[i], category, difficulty)
    ensures (exists i :: 0 <= i < |all| && Matches(all[i], category, difficulty)) ==>
              r == Matching(all, category, difficulty)
    ensures (forall i :: 0 <= i < |all| ==> !Matches(all[i], category, difficulty)) ==> r == all
  {
    FilterIsMatching(all, category, difficulty);
    MatchingEmptyIffNoMatch(all, category, difficulty);
    var filtered := FilterQuizzes(all, category, difficulty);
    if filtered != [] then filtered else all
  }

  /** `random.shuffle`: for i from |s|-1 down to 1, swap position i with a
      position j <= i. The random choices are the parameter `draws`; the k-th
      swap uses `draws[k] % (i + 1)`, and swaps past the end of `draws` leave
      the element in place. Whatever the draws, the result is a permutation. */
  method Shuffle<T>(s: seq<T>, draws: seq<nat>) returns (r: seq<T>)
    ensures |r| == |s|
    ensures multiset(r) == multiset(s)
  {
    r := s;
    var i, k := |r|, 0;
    while i > 1
      invariant 0 <= i <= |r| == |s|
      invariant multiset(r) == multiset(s)
    {
      i := i - 1;
      var j := if k < |draws| then draws[k] % (i + 1) else i;
      r := r[i := r[j]][j := r[i]];
      k := k + 1;
    }
  }
}
