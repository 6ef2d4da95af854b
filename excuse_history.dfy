/**
 * The excuse history view: the stored excuses loaded with a synthetic success
 * rate, searched, filtered by category, sorted by one of five keys, favourited,
 * deleted and cleared, with every change written back to storage.
 */
module ExcuseHistory {
  import opened Wrappers
  import opened Lists
  import opened Text
  import opened ExcuseRecord

  /** An excuse as the view holds it: the stored fields plus a display-only success rate. */
  datatype Excuse = Excuse(
    id: int,
    text: string,
    category: string,
    urgency: int,
    believability: int,
    timestamp: int,
    isFavorite: bool,
    successRate: Option<int>)

  /** The colour band a success rate is shown in. */
  datatype RateColor = Green | Yellow | Red

  /** The five recognised values of the sort selector. */
  datatype SortKey = Recent | Oldest | Success | Urgency | Believability

  // ---------------------------------------------------------------------------
  // Loading and persisting

  /** The record as it is written back to storage: the seven stored fields, without the success rate. */
  function Persisted(e: Excuse): (r: StoredExcuse)
    ensures r.id == e.id && r.text == e.text && r.category == e.category
    ensures r.urgency == e.urgency && r.believability == e.believability
    ensures r.timestamp == e.timestamp && r.isFavorite == e.isFavorite
  {
    StoredExcuse(e.id, e.text, e.category, e.urgency, e.believability, e.timestamp, e.isFavorite)
  }

  /** A stored record extended with a success rate. */
  function WithRate(r: StoredExcuse, rate: int): (e: Excuse)
    ensures Persisted(e) == r && e.successRate == Some(rate)
  {
    Excuse(r.id, r.text, r.category, r.urgency, r.believability, r.timestamp, r.isFavorite, Some(rate))
  }

  /** `Math.floor(roll * 30) + 70` for a draw `roll` of `Math.random()`: never 100. */
  function SyntheticRate(roll: real): (rate: int)
    requires 0.0 <= roll < 1.0
    ensures 70 <= rate <= 99
  {
    (roll * 30.0).Floor + 70
  }

  /** Each draw lies in the range of `Math.random()`. */
  predicate ValidRolls(rolls: seq<real>) {
    forall i :: 0 <= i < |rolls| ==> 0.0 <= rolls[i] < 1.0
  }

  /**
   * The list the view loads: the stored list (the empty list when the key is
   * absent), each record given a success rate from its own random draw.
   */
  function Loaded(stored: Option<seq<StoredExcuse>>, rolls: seq<real>): (r: seq<Excuse>)
    requires |rolls| == |stored.GetOr([])| && ValidRolls(rolls)
    ensures |r| == |stored.GetOr([])|
    ensures forall i :: 0 <= i < |r| ==> Persisted(r[i]) == stored.GetOr([])[i]
    ensures forall i :: 0 <= i < |r| ==> r[i].successRate.Some? && 70 <= r[i].successRate.value <= 99
  {
    var history := stored.GetOr([]);
    seq(|history|, i requires 0 <= i < |history| => WithRate(history[i], SyntheticRate(rolls[i])))
  }

  /** The list as it is written back to storage: each record projected, in the same order. */
  function Persist(s: seq<Excuse>): (r: seq<StoredExcuse>)
    ensures |r| == |s|
    ensures forall i :: 0 <= i < |s| ==> r[i] == Persisted(s[i])
  {
    seq(|s|, i requires 0 <= i < |s| => Persisted(s[i]))
  }

  /** Persisting what was loaded gives back exactly what was stored. */
  lemma PersistLoadedRoundTrip(stored: Option<seq<StoredExcuse>>, rolls: seq<real>)
    requires |rolls| == |stored.GetOr([])| && ValidRolls(rolls)
    ensures Persist(Loaded(stored, rolls)) == stored.GetOr([])
  {
  }

  /** `getSuccessRateColor`: green from 90, yellow from 75, red below. */
  function SuccessRateColor(rate: int): (c: RateColor)
    ensures c == Green <==> rate >= 90
    ensures c == Yellow <==> 75 <= rate < 90
    ensures c == Red <==> rate < 75
  {
    if rate >= 90 then Green else if rate >= 75 then Yellow else Red
  }

  // ---------------------------------------------------------------------------
  // Search, category filter and sort

  /** The search box keeps a record whose lower-cased text or category contains the lower-cased term. */
  predicate MatchesSearch(e: Excuse, term: string)
    ensures term == "" ==> MatchesSearch(e, term)
    ensures MatchesSearch(e, term) ==> |term| <= |e.text| || |term| <= |e.category|
  {
    assert OccursAt(ToLower(e.text), [], 0);
    Contains(ToLower(e.text), ToLower(term)) || Contains(ToLower(e.category), ToLower(term))
  }

  /** The category selector: 'favorites' keeps favourites, any other value an exact category. */
  predicate MatchesCategory(e: Excuse, category: string)
    ensures category == "favorites" ==> (MatchesCategory(e, category) <==> e.isFavorite)
    ensures category != "favorites" ==> (MatchesCategory(e, category) <==> e.category == category)
  {
    if category == "favorites" then e.isFavorite else e.category == category
  }

  function FilterBySearch(s: seq<Excuse>, term: string): seq<Excuse> {
    Filter(s, e => MatchesSearch(e, term))
  }

  function FilterByCategory(s: seq<Excuse>, category: string): seq<Excuse> {
    Filter(s, e => MatchesCategory(e, category))
  }

  /** The records that pass both filters; an empty term and the category 'all' skip their filter. */
  function Selected(s: seq<Excuse>, term: string, category: string): (r: seq<Excuse>)
    ensures |r| <= |s|
    ensures term == "" && category == "all" ==> r == s
    ensures forall x :: x in r ==>
      (term == "" || MatchesSearch(x, term)) && (category == "all" || MatchesCategory(x, category))
  {
    var searched := if term != "" then FilterBySearch(s, term) else s;
    assert forall x :: x in searched ==> term == "" || MatchesSearch(x, term);
    if category != "all" then FilterByCategory(searched, category) else searched
  }

  /** The sort selector's value, when it is one of the five the view knows. */
  function ParseSortKey(sortBy: string): (k: Option<SortKey>)
    ensures k == Some(Recent) <==> sortBy == "recent"
    ensures k == Some(Oldest) <==> sortBy == "oldest"
    ensures k == Some(Success) <==> sortBy == "success"
    ensures k == Some(Urgency) <==> sortBy == "urgency"
    ensures k == Some(Believability) <==> sortBy == "believability"
  {
    match sortBy
    case "recent" => Some(Recent)
    case "oldest" => Some(Oldest)
    case "success" => Some(Success)
    case "urgency" => Some(Urgency)
    case "believability" => Some(Believability)
    case _ => None
  }

  /** `(e.successRate || 0)`: a missing rate counts as 0. */
  function SuccessOrZero(e: Excuse): int {
    match e.successRate
    case Some(v) => v
    case None => 0
  }

  /**
   * The quantity the comparator for `k` orders by, largest first: every
   * comparator has the shape `(a, b) => Rank(b) - Rank(a)`; 'oldest' compares
   * `a - b` on timestamps, which is the negated timestamp largest first.
   */
  function Rank(e: Excuse, k: SortKey): int {
    match k
    case Recent => e.timestamp
    case Oldest => -e.timestamp
    case Success => SuccessOrZero(e)
    case Urgency => e.urgency
    case Believability => e.believability
  }

  /** The comparators of the five sort cases, as the view writes them: negative puts `a` first. */
  function Comparator(k: SortKey, a: Excuse, b: Excuse): int {
    match k
    case Recent => b.timestamp - a.timestamp
    case Oldest => a.timestamp - b.timestamp
    case Success => SuccessOrZero(b) - SuccessOrZero(a)
    case Urgency => b.urgency - a.urgency
    case Believability => b.believability - a.believability
  }

  /**
   * Every comparator is the difference of ranks, so `a` goes first exactly when
   * it ranks higher, and the comparator reports a tie exactly on equal ranks.
   */
  lemma ComparatorIsRankDifference(k: SortKey, a: Excuse, b: Excuse)
    ensures Comparator(k, a, b) == Rank(b, k) - Rank(a, k)
    ensures Comparator(k, a, b) < 0 <==> Rank(a, k) > Rank(b, k)
    ensures Comparator(k, a, b) == 0 <==> Rank(a, k) == Rank(b, k)
  {
  }

  ghost predicate SortedBy(s: seq<Excuse>, k: SortKey) {
    forall i, j :: 0 <= i < j < |s| ==> Rank(s[i], k) >= Rank(s[j], k)
  }

  /** Inserts `x` into a sorted list before the first element it does not rank below. */
  function Insert(x: Excuse, s: seq<Excuse>, k: SortKey): (r: seq<Excuse>)
    requires SortedBy(s, k)
    ensures SortedBy(r, k)
    ensures |r| == |s| + 1
    ensures multiset(r) == multiset(s) + multiset{x}
    ensures r[0] == x || (s != [] && r[0] == s[0])
  {
    if s == [] || Rank(x, k) >= Rank(s[0], k) then [x] + s
    else
      var rest := Insert(x, s[1..], k);
      assert s == [s[0]] + s[1..];
      [s[0]] + rest
  }

  /**
   * `Array.prototype.sort` with the comparator for `k`: a stable sort, largest
   * rank first, where records of equal rank keep their relative order.
   */
  function SortBy(s: seq<Excuse>, k: SortKey): (r: seq<Excuse>)
    ensures SortedBy(r, k)
    ensures |r| == |s|
    ensures multiset(r) == multiset(s)
  {
    if s == [] then []
    else
      assert s == [s[0]] + s[1..];
      Insert(s[0], SortBy(s[1..], k), k)
  }

  /** The records of `s` whose rank under `k` is `v`, in their order in `s`. */
  function OfRank(s: seq<Excuse>, k: SortKey, v: int): (r: seq<Excuse>)
    ensures |r| <= |s|
    ensures forall i :: 0 <= i < |r| ==> Rank(r[i], k) == v
  {
    if s == [] then []
    else if Rank(s[0], k) == v then [s[0]] + OfRank(s[1..], k, v)
    else OfRank(s[1..], k, v)
  }

  /**
   * Inserting into a sorted list puts `x` ahead of the records of equal rank
   * already there.
   */
  lemma {:induction false} InsertIsStable(x: Excuse, s: seq<Excuse>, k: SortKey, v: int)
    requires SortedBy(s, k)
    ensures OfRank(Insert(x, s, k), k, v) == (if Rank(x, k) == v then [x] else []) + OfRank(s, k, v)
  {
    if s == [] || Rank(x, k) >= Rank(s[0], k) {
      OfRankCons(x, s, k, v);
    } else {
      var tail := s[1..];
      assert SortedBy(tail, k) by {
        forall i, j | 0 <= i < j < |tail| ensures Rank(tail[i], k) >= Rank(tail[j], k) {
          assert tail[i] == s[i + 1] && tail[j] == s[j + 1];
        }
      }
      var rest := Insert(x, tail, k);
      InsertIsStable(x, tail, k, v);
      OfRankCons(s[0], rest, k, v);
      OfRankCons(s[0], tail, k, v);
      assert s == [s[0]] + tail;
    }
  }

  /** Unfolding `OfRank` at the head of a list. */
  lemma OfRankCons(a: Excuse, t: seq<Excuse>, k: SortKey, v: int)
    ensures OfRank([a] + t, k, v) == (if Rank(a, k) == v then [a] else []) + OfRank(t, k, v)
  {
    assert ([a] + t)[1..] == t;
  }

  /**
   * The sort is stable: for every rank, the records of that rank appear in the
   * sorted list in the order they had before.
   */
  lemma {:induction false} SortByIsStable(s: seq<Excuse>, k: SortKey, v: int)
    ensures OfRank(SortBy(s, k), k, v) == OfRank(s, k, v)
  {
    if s != [] {
      SortByIsStable(s[1..], k, v);
      InsertIsStable(s[0], SortBy(s[1..], k), k, v);
    }
  }

  /** What `filterAndSortExcuses` shows: the selected records, sorted when the key is known. */
  function Arrange(s: seq<Excuse>, term: string, category: string, sortBy: string): (r: seq<Excuse>)
    ensures |r| == |Selected(s, term, category)|
    ensures ParseSortKey(sortBy).None? ==> r == Selected(s, term, category)
  {
    var selected := Selected(s, term, category);
    match ParseSortKey(sortBy)
    case Some(k) => SortBy(selected, k)
    case None => selected
  }

  /**
   * The filters keep exactly the matching records, as an order-preserving
   * subsequence: with a term, a record stays iff it matches the search; with a
   * category other than 'all', iff it matches the category.
   */
  lemma SelectedKeepsExactlyMatches(s: seq<Excuse>, term: string, category: string)
    ensures IsSubsequence(Selected(s, term, category), s)
    ensures forall e :: e in Selected(s, term, category) <==>
      e in s && (term == "" || MatchesSearch(e, term)) && (category == "all" || MatchesCategory(e, category))
  {
    var searched := if term != "" then FilterBySearch(s, term) else s;
    if term == "" {
      SubsequenceOfItself(s);
    }
    if category == "all" {
      assert Selected(s, term, category) == searched;
    } else {
      SubsequenceTransitive(FilterByCategory(searched, category), searched, s);
    }
  }

  /** A subsequence of a subsequence is a subsequence. */
  lemma {:induction false} SubsequenceTransitive<T>(a: seq<T>, b: seq<T>, c: seq<T>)
    requires IsSubsequence(a, b) && IsSubsequence(b, c)
    decreases |c|
    ensures IsSubsequence(a, c)
  {
    if a != [] {
      assert b != [] && c != [];
      if b[0] == c[0] && IsSubsequence(b[1..], c[1..]) {
        if a[0] == b[0] && IsSubsequence(a[1..], b[1..]) {
          SubsequenceTransitive(a[1..], b[1..], c[1..]);
        } else {
          SubsequenceTransitive(a, b[1..], c[1..]);
        }
      } else {
        SubsequenceTransitive(a, b, c[1..]);
      }
    }
  }

  /** Sorting adds and drops nothing: the result is a permutation of the selected records. */
  lemma ArrangeIsPermutationOfSelected(s: seq<Excuse>, term: string, category: string, sortBy: string)
    ensures multiset(Arrange(s, term, category, sortBy)) == multiset(Selected(s, term, category))
  {
  }

  /**
   * The order the sort selector promises: urgency, believability and success
   * (missing as 0) largest first, 'recent' newest first, 'oldest' oldest first,
   * and any other value leaves the filtered order as it was.
   */
  lemma ArrangeOrder(s: seq<Excuse>, term: string, category: string, sortBy: string)
    ensures var r := Arrange(s, term, category, sortBy);
      && (sortBy == "recent" ==> forall i, j :: 0 <= i < j < |r| ==> r[i].timestamp >= r[j].timestamp)
      && (sortBy == "oldest" ==> forall i, j :: 0 <= i < j < |r| ==> r[i].timestamp <= r[j].timestamp)
      && (sortBy == "success" ==> forall i, j :: 0 <= i < j < |r| ==> SuccessOrZero(r[i]) >= SuccessOrZero(r[j]))
      && (sortBy == "urgency" ==> forall i, j :: 0 <= i < j < |r| ==> r[i].urgency >= r[j].urgency)
      && (sortBy == "believability" ==> forall i, j :: 0 <= i < j < |r| ==> r[i].believability >= r[j].believability)
      && (ParseSortKey(sortBy).None? ==> r == Selected(s, term, category))
  {
    var r := Arrange(s, term, category, sortBy);
    match ParseSortKey(sortBy)
    case None =>
    case Some(k) =>
      assert SortedBy(r, k);
      forall i, j | 0 <= i < j < |r| ensures Rank(r[i], k) >= Rank(r[j], k) {
      }
  }

  // ---------------------------------------------------------------------------
  // Favourite, delete, statistics

  /** `toggleFavorite`: flips the flag on the records carrying `id`. */
  function FavoriteToggled(s: seq<Excuse>, id: int): (r: seq<Excuse>)
    ensures |r| == |s|
    ensures forall i :: 0 <= i < |s| ==> r[i].isFavorite == (s[i].isFavorite != (s[i].id == id))
    ensures forall i :: 0 <= i < |s| ==> r[i].(isFavorite := s[i].isFavorite) == s[i]
  {
    if s == [] then []
    else
      var head := if s[0].id == id then s[0].(isFavorite := !s[0].isFavorite) else s[0];
      [head] + FavoriteToggled(s[1..], id)
  }

  /** Toggling the same id twice restores the list. */
  lemma {:induction false} ToggleTwiceRestores(s: seq<Excuse>, id: int)
    ensures FavoriteToggled(FavoriteToggled(s, id), id) == s
  {
    if s != [] {
      ToggleTwiceRestores(s[1..], id);
    }
  }

  /** `deleteExcuse`: drops the records carrying `id`. */
  function Deleted(s: seq<Excuse>, id: int): (r: seq<Excuse>)
    ensures IsSubsequence(r, s)
    ensures forall e :: e in r <==> e in s && e.id != id
    ensures forall e: Excuse :: e.id != id ==> multiset(r)[e] == multiset(s)[e]
  {
    Filter(s, (e: Excuse) => e.id != id)
  }

  /** Records that do not carry `id` are kept in full, in order. */
  lemma DeleteAbsentIdKeepsAll(s: seq<Excuse>, id: int)
    requires forall i :: 0 <= i < |s| ==> s[i].id != id
    ensures Deleted(s, id) == s
  {
    FilterKeepsAll(s, (e: Excuse) => e.id != id);
  }

  /** The favourites counter. */
  function FavoriteCount(s: seq<Excuse>): (n: nat)
    ensures n <= |s|
    ensures n == 0 <==> forall i :: 0 <= i < |s| ==> !s[i].isFavorite
  {
    var favourites := Filter(s, (e: Excuse) => e.isFavorite);
    assert favourites != [] ==> favourites[0] in s;
    assert forall i :: 0 <= i < |s| && s[i].isFavorite ==> s[i] in favourites;
    |favourites|
  }

  /** The counter counts each favourite once: nothing for the empty list, one more per favourite in front. */
  lemma FavoriteCountCounts(e: Excuse, s: seq<Excuse>)
    ensures FavoriteCount([]) == 0
    ensures FavoriteCount([e] + s) == (if e.isFavorite then 1 else 0) + FavoriteCount(s)
  {
    assert ([e] + s)[1..] == s;
  }

  /** The categories that occur in the list (the keys of the counting reduce). */
  function CategoriesUsed(s: seq<Excuse>): (r: set<string>)
    ensures forall i :: 0 <= i < |s| ==> s[i].category in r
    ensures forall c :: c in r ==> exists i :: 0 <= i < |s| && s[i].category == c
    ensures |r| <= |s|
    ensures s != [] ==> |r| >= 1
  {
    if s == [] then {}
    else
      var rest := CategoriesUsed(s[1..]);
      assert forall i :: 1 <= i < |s| ==> s[i].category in rest by {
        forall i | 1 <= i < |s| ensures s[i].category in rest {
          assert s[i] == s[1..][i - 1];
        }
      }
      {s[0].category} + rest
  }

  /** Toggling a favourite leaves the set of categories in use unchanged. */
  lemma ToggleKeepsCategories(s: seq<Excuse>, id: int)
    ensures CategoriesUsed(FavoriteToggled(s, id)) == CategoriesUsed(s)
  {
    var r := FavoriteToggled(s, id);
    forall c ensures c in CategoriesUsed(r) <==> c in CategoriesUsed(s) {
      if c in CategoriesUsed(r) {
        var i :| 0 <= i < |r| && r[i].category == c;
        assert s[i].category == c;
      }
      if c in CategoriesUsed(s) {
        var i :| 0 <= i < |s| && s[i].category == c;
        assert r[i].category == c;
      }
    }
  }

  // ---------------------------------------------------------------------------
  // The component

  /** A fresh array holding `s`. */
  method FromSeq(s: seq<Excuse>) returns (a: array<Excuse>)
    ensures fresh(a) && a[..] == s
  {
    a := new Excuse[|s|](i requires 0 <= i < |s| => s[i]);
  }

  /** `Array.prototype.sort` on `a`, in place. */
  method SortInPlace(a: array<Excuse>, k: SortKey)
    modifies a
    ensures a[..] == SortBy(old(a[..]), k)
  {
    var sorted := SortBy(a[..], k);
    forall i | 0 <= i < a.Length {
      a[i] := sorted[i];
    }
  }

  /** The view's state: the loaded list, the list on display and the three controls. */
  class HistoryView {
    var excuses: array<Excuse>
    var filteredExcuses: array<Excuse>
    var searchTerm: string
    var filterCategory: string
    var sortBy: string

    constructor ()
      ensures excuses.Length == 0 && filteredExcuses.Length == 0
      ensures searchTerm == "" && filterCategory == "all" && sortBy == "recent"
    {
      excuses := new Excuse[0];
      filteredExcuses := new Excuse[0];
      searchTerm, filterCategory, sortBy := "", "all", "recent";
    }

    /** `loadExcuses`: reads the stored list and attaches one synthetic rate per record. */
    method LoadExcuses(stored: Option<seq<StoredExcuse>>, rolls: seq<real>)
      requires |rolls| == |stored.GetOr([])| && ValidRolls(rolls)
      modifies this
      ensures fresh(excuses) && excuses[..] == Loaded(stored, rolls)
      ensures filteredExcuses == old(filteredExcuses)
      ensures searchTerm == old(searchTerm) && filterCategory == old(filterCategory) && sortBy == old(sortBy)
    {
      excuses := FromSeq(Loaded(stored, rolls));
    }

    /**
     * `filterAndSortExcuses`. Each filter that applies builds a new array; when
     * none applies, `filtered` is the state array itself and the sort reorders
     * that array in place.
     */
    method FilterAndSortExcuses()
      modifies this, excuses
      ensures filteredExcuses[..] == Arrange(old(excuses[..]), searchTerm, filterCategory, sortBy)
      ensures excuses == old(excuses)
      ensures searchTerm == old(searchTerm) && filterCategory == old(filterCategory) && sortBy == old(sortBy)
      ensures searchTerm == "" && filterCategory == "all" ==> filteredExcuses == excuses
      ensures !(searchTerm == "" && filterCategory == "all") ==>
        fresh(filteredExcuses) && excuses[..] == old(excuses[..])
    {
      ghost var before := excuses[..];
      var filtered := excuses;
      if searchTerm != "" {
        filtered := FromSeq(FilterBySearch(filtered[..], searchTerm));
      }
      ghost var searched := if searchTerm != "" then FilterBySearch(before, searchTerm) else before;
      assert filtered[..] == searched;
      if filterCategory != "all" {
        filtered := FromSeq(FilterByCategory(filtered[..], filterCategory));
      }
      assert filtered[..] == Selected(before, searchTerm, filterCategory);
      ghost var selected := filtered[..];
      match ParseSortKey(sortBy) {
        case Some(k) =>
          SortInPlace(filtered, k);
          assert filtered[..] == SortBy(selected, k);
        case None =>
      }
      assert filtered[..] == Arrange(before, searchTerm, filterCategory, sortBy);
      filteredExcuses := filtered;
    }

    /** `toggleFavorite`: the new list and what is written under 'excuse-history'. */
    method ToggleFavorite(id: int) returns (stored: Option<seq<StoredExcuse>>)
      modifies this
      ensures fresh(excuses) && excuses[..] == FavoriteToggled(old(excuses[..]), id)
      ensures stored == Some(Persist(excuses[..]))
      ensures filteredExcuses == old(filteredExcuses)
      ensures searchTerm == old(searchTerm) && filterCategory == old(filterCategory) && sortBy == old(sortBy)
    {
      excuses := FromSeq(FavoriteToggled(excuses[..], id));
      stored := Some(Persist(excuses[..]));
    }

    /** `deleteExcuse`: the new list and what is written under 'excuse-history'. */
    method DeleteExcuse(id: int) returns (stored: Option<seq<StoredExcuse>>)
      modifies this
      ensures fresh(excuses) && excuses[..] == Deleted(old(excuses[..]), id)
      ensures stored == Some(Persist(excuses[..]))
      ensures filteredExcuses == old(filteredExcuses)
      ensures searchTerm == old(searchTerm) && filterCategory == old(filterCategory) && sortBy == old(sortBy)
    {
      excuses := FromSeq(Deleted(excuses[..], id));
      stored := Some(Persist(excuses[..]));
    }

    /** `clearAllHistory`: an empty list, and the storage key removed. */
    method ClearAllHistory() returns (stored: Option<seq<StoredExcuse>>)
      modifies this
      ensures excuses.Length == 0 && stored == None
      ensures filteredExcuses == old(filteredExcuses)
      ensures searchTerm == old(searchTerm) && filterCategory == old(filterCategory) && sortBy == old(sortBy)
    {
      excuses := new Excuse[0];
      stored := None;
    }
  }
}
