/** Ordering offices: keyword priority first, then named before unnamed, then the locale order. */
module Offices {
  import opened Common
  import opened Strings
  import opened Sorting

  const DEFAULT_OFFICE_PRIORITY_KEYWORDS: seq<string> := ["東京", "岡山"]

  /** `Number.MAX_SAFE_INTEGER`, the priority of an office no keyword matches. */
  const MAX_SAFE_INTEGER: int := 9007199254740991

  /** `office.name ?? ""`. */
  function NameOf(office: Office): string {
    office.name.GetOr("")
  }

  /** `keywords.findIndex((keyword) => name.includes(keyword))`. */
  function FindKeyword(keywords: seq<string>, name: string): (r: int)
    ensures -1 <= r < |keywords|
    ensures r >= 0 ==> Contains(name, keywords[r])
    ensures forall j :: 0 <= j < |keywords| && (r < 0 || j < r) ==> !Contains(name, keywords[j])
  {
    if keywords == [] then -1
    else if Contains(name, keywords[0]) then 0
    else
      var rest := FindKeyword(keywords[1..], name);
      assert forall j :: 1 <= j < |keywords| ==> keywords[j] == keywords[1..][j - 1];
      if rest < 0 then -1 else rest + 1
  }

  /** `resolvePriority(office, keywords)`: the first matching keyword's index, or the maximum. */
  function ResolvePriority(office: Office, keywords: seq<string>): (r: int)
    ensures r >= 0
    ensures r != MAX_SAFE_INTEGER && |keywords| <= MAX_SAFE_INTEGER ==>
      r < |keywords| && Contains(NameOf(office), keywords[r])
    ensures forall j :: 0 <= j < |keywords| && j < r ==> !Contains(NameOf(office), keywords[j])
  {
    var index := FindKeyword(keywords, NameOf(office));
    if index >= 0 then index else MAX_SAFE_INTEGER
  }

  /** The comparator `sortOfficesByPriority` hands to `sort`, over a locale comparison `localeCompare`. */
  function CompareOffices(a: Office, b: Office, keywords: seq<string>, localeCompare: (string, string) -> int)
    : (r: int)
    ensures ResolvePriority(a, keywords) != ResolvePriority(b, keywords) ==>
      Sign(r) == Sign(ResolvePriority(a, keywords) - ResolvePriority(b, keywords))
    ensures ResolvePriority(a, keywords) == ResolvePriority(b, keywords) ==>
      && (NameOf(a) != "" && NameOf(b) != "" ==> r == localeCompare(NameOf(a), NameOf(b)))
      && (NameOf(a) != "" && NameOf(b) == "" ==> r < 0)
      && (NameOf(a) == "" && NameOf(b) != "" ==> r > 0)
      && (NameOf(a) == "" && NameOf(b) == "" ==> r == 0)
  {
    var priorityA := ResolvePriority(a, keywords);
    var priorityB := ResolvePriority(b, keywords);
    if priorityA != priorityB then priorityA - priorityB
    else
      var nameA := NameOf(a);
      var nameB := NameOf(b);
      if nameA != "" && nameB != "" then localeCompare(nameA, nameB)
      else if nameA != "" then -1
      else if nameB != "" then 1
      else 0
  }

  function Comparator(keywords: seq<string>, localeCompare: (string, string) -> int): (Office, Office) -> int {
    (a: Office, b: Office) => CompareOffices(a, b, keywords, localeCompare)
  }

  /** `sortOfficesByPriority(offices, { priorityKeywords })`: a sorted copy. */
  function SortOfficesByPriority(offices: seq<Office>, keywords: seq<string>, localeCompare: (string, string) -> int)
    : (r: seq<Office>)
    ensures multiset(r) == multiset(offices)
    ensures |r| == |offices|
  {
    Sort(offices, Comparator(keywords, localeCompare))
  }

  /** The comparator is sign-antisymmetric whenever the locale comparison is. */
  lemma ComparatorAntisymmetric(keywords: seq<string>, localeCompare: (string, string) -> int)
    requires SignAntisymmetric(localeCompare)
    ensures SignAntisymmetric(Comparator(keywords, localeCompare))
  {
    forall a: Office, b: Office
      ensures Sign(Comparator(keywords, localeCompare)(a, b)) == -Sign(Comparator(keywords, localeCompare)(b, a))
    {
      if ResolvePriority(a, keywords) == ResolvePriority(b, keywords) && NameOf(a) != "" && NameOf(b) != "" {
        assert Sign(localeCompare(NameOf(a), NameOf(b))) == -Sign(localeCompare(NameOf(b), NameOf(a)));
      }
    }
  }

  /** Priority first, then named (0) before unnamed (1): the order the comparator refines. */
  function Rank(office: Office, keywords: seq<string>): int {
    2 * ResolvePriority(office, keywords) + (if NameOf(office) != "" then 0 else 1)
  }

  /** A pair the comparator does not reverse never decreases in rank. */
  lemma RankOfOrderedPair(a: Office, b: Office, keywords: seq<string>, localeCompare: (string, string) -> int)
    requires CompareOffices(a, b, keywords, localeCompare) <= 0
    ensures Rank(a, keywords) <= Rank(b, keywords)
  {
  }

  /** In the sorted copy, rank never decreases between any two positions. */
  lemma {:induction false} SortedByRank(offices: seq<Office>, keywords: seq<string>, localeCompare: (string, string) -> int)
    requires SignAntisymmetric(localeCompare)
    ensures var r := SortOfficesByPriority(offices, keywords, localeCompare);
      forall i, j :: 0 <= i < j < |r| ==> Rank(r[i], keywords) <= Rank(r[j], keywords)
  {
    var r := SortOfficesByPriority(offices, keywords, localeCompare);
    ComparatorAntisymmetric(keywords, localeCompare);
    SortSorted(offices, Comparator(keywords, localeCompare));
    forall i, j | 0 <= i < j < |r| ensures Rank(r[i], keywords) <= Rank(r[j], keywords) {
      RankChain(r, keywords, localeCompare, i, j);
    }
  }

  lemma {:induction false} RankChain(r: seq<Office>, keywords: seq<string>, localeCompare: (string, string) -> int, i: int, j: int)
    requires Sorted(r, Comparator(keywords, localeCompare))
    requires 0 <= i <= j < |r|
    ensures Rank(r[i], keywords) <= Rank(r[j], keywords)
    decreases j - i
  {
    if i < j {
      RankChain(r, keywords, localeCompare, i, j - 1);
      assert Comparator(keywords, localeCompare)(r[j - 1], r[j]) <= 0;
      RankOfOrderedPair(r[j - 1], r[j], keywords, localeCompare);
    }
  }

  /**
   * The sorted copy lists offices by non-decreasing priority, and within one priority
   * every office with a name comes before every office without one.
   */
  lemma PriorityThenNamed(offices: seq<Office>, keywords: seq<string>, localeCompare: (string, string) -> int)
    requires SignAntisymmetric(localeCompare)
    ensures var r := SortOfficesByPriority(offices, keywords, localeCompare);
      forall i, j :: 0 <= i < j < |r| ==>
        && ResolvePriority(r[i], keywords) <= ResolvePriority(r[j], keywords)
        && (ResolvePriority(r[i], keywords) == ResolvePriority(r[j], keywords) && NameOf(r[j]) != ""
            ==> NameOf(r[i]) != "")
  {
    SortedByRank(offices, keywords, localeCompare);
  }

  /** With the default keywords, 東京 offices come first, then 岡山 offices, then the rest. */
  lemma DefaultKeywordOrder(offices: seq<Office>, localeCompare: (string, string) -> int)
    requires SignAntisymmetric(localeCompare)
    ensures var r := SortOfficesByPriority(offices, DEFAULT_OFFICE_PRIORITY_KEYWORDS, localeCompare);
      forall i, j :: 0 <= i < j < |r| ==>
        && (Contains(NameOf(r[j]), "東京") ==> Contains(NameOf(r[i]), "東京"))
        && (Contains(NameOf(r[j]), "岡山") ==> Contains(NameOf(r[i]), "東京") || Contains(NameOf(r[i]), "岡山"))
  {
    var keywords := DEFAULT_OFFICE_PRIORITY_KEYWORDS;
    var r := SortOfficesByPriority(offices, keywords, localeCompare);
    PriorityThenNamed(offices, keywords, localeCompare);
    forall i, j | 0 <= i < j < |r|
      ensures Contains(NameOf(r[j]), "東京") ==> Contains(NameOf(r[i]), "東京")
      ensures Contains(NameOf(r[j]), "岡山") ==> Contains(NameOf(r[i]), "東京") || Contains(NameOf(r[i]), "岡山")
    {
      assert keywords[0] == "東京" && keywords[1] == "岡山";
      var pi, pj := ResolvePriority(r[i], keywords), ResolvePriority(r[j], keywords);
      assert pi <= pj;
      if Contains(NameOf(r[j]), "東京") {
        assert pj == 0;
      }
      if Contains(NameOf(r[j]), "岡山") {
        assert pj <= 1;
      }
    }
  }
}
