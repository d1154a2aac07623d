/** pages/view_tour.py: the tour viewer and editor. Each run of the page loads the scraped tour
    records, keeps those matching the search box, shows one card per kept tour whose four
    booking widgets write back into that tour, and saves the whole list when a card's save
    button was the one pressed. */
module ViewTour {
  import opened Wrappers
  import opened PyStr
  import opened Json

  // ---------------------------------------------------------------- loading

  /** `tours` after loading: a dict is wrapped in a list, a list is taken as it is, and a
      missing file (`None`) or any other JSON value gives no tours. */
  function LoadTours(file: Option<Json>): (tours: seq<Json>)
    ensures file.Some? && file.value.Obj? ==> tours == [file.value]
    ensures file.Some? && file.value.Arr? ==> tours == file.value.items
    ensures file.None? || !(file.value.Obj? || file.value.Arr?) ==> tours == []
  {
    if file.None? then []
    else match file.value
      case Obj(_) => [file.value]
      case Arr(items) => items
      case _ => []
  }

  // ---------------------------------------------------------------- the search filter

  /** Why evaluating the filter raised: a tour that is not a dict, a missing key, or a value
      without `.lower()`. */
  datatype ViewError = NotADict | MissingKey(key: string) | NotAString(key: string)

  /** The four fields searched, in the order the condition tests them. */
  const SearchKeys: seq<string> := ["trip_name", "trip_code", "region", "country"]

  /** `tour[key].lower()`. */
  function FieldLower(tour: Json, key: string): (r: Result<string, ViewError>)
    ensures r.Ok? <==> tour.Obj? && key in tour.fields && tour.fields[key].Str?
    ensures r.Ok? ==> r.value == Lower(tour.fields[key].s)
  {
    if !tour.Obj? then Err(NotADict)
    else if key !in tour.fields then Err(MissingKey(key))
    else if !tour.fields[key].Str? then Err(NotAString(key))
    else Ok(Lower(tour.fields[key].s))
  }

  /** The `or` chain over `keys`: stops at the first field containing `term`, and raises at the
      first field it cannot lower. */
  function MatchesFrom(tour: Json, term: string, keys: seq<string>): Result<bool, ViewError>
    decreases |keys|
  {
    if keys == [] then Ok(false)
    else match FieldLower(tour, keys[0])
      case Err(e) => Err(e)
      case Ok(value) => if Contains(value, term) then Ok(true) else MatchesFrom(tour, term, keys[1..])
  }

  /** The filter's condition for one tour. */
  function Matches(tour: Json, term: string): Result<bool, ViewError>
  {
    MatchesFrom(tour, term, SearchKeys)
  }

  /** A tour whose searched fields are all strings is kept exactly when one of them, lowered,
      contains the term. */
  lemma {:induction false} MatchesFromStrings(tour: Json, term: string, keys: seq<string>)
    requires tour.Obj?
    requires forall k :: 0 <= k < |keys| ==> keys[k] in tour.fields && tour.fields[keys[k]].Str?
    ensures MatchesFrom(tour, term, keys)
            == Ok(exists k :: 0 <= k < |keys| && Contains(Lower(tour.fields[keys[k]].s), term))
    decreases |keys|
  {
    if keys != [] {
      MatchesFromStrings(tour, term, keys[1..]);
      if !Contains(Lower(tour.fields[keys[0]].s), term) {
        if exists k :: 0 <= k < |keys| && Contains(Lower(tour.fields[keys[k]].s), term) {
          var k :| 0 <= k < |keys| && Contains(Lower(tour.fields[keys[k]].s), term);
          assert keys[1..][k - 1] == keys[k];
        }
        if exists k :: 0 <= k < |keys[1..]| && Contains(Lower(tour.fields[keys[1..][k]].s), term) {
          var k :| 0 <= k < |keys[1..]| && Contains(Lower(tour.fields[keys[1..][k]].s), term);
          assert keys[k + 1] == keys[1..][k];
        }
      }
    }
  }

  /** Kept iff the lower-cased `trip_name`, `trip_code`, `region` or `country` contains the
      term, for a dict holding those four as strings. */
  lemma MatchesIff(tour: Json, term: string)
    requires tour.Obj?
    requires forall key :: key in SearchKeys ==> key in tour.fields && tour.fields[key].Str?
    ensures Matches(tour, term)
            == Ok(Contains(Lower(tour.fields["trip_name"].s), term)
                  || Contains(Lower(tour.fields["trip_code"].s), term)
                  || Contains(Lower(tour.fields["region"].s), term)
                  || Contains(Lower(tour.fields["country"].s), term))
  {
    forall k | 0 <= k < |SearchKeys|
      ensures SearchKeys[k] in tour.fields && tour.fields[SearchKeys[k]].Str?
    {
      assert SearchKeys[k] in SearchKeys;
    }
    MatchesFromStrings(tour, term, SearchKeys);
    var keys := SearchKeys;
    if exists k :: 0 <= k < |keys| && Contains(Lower(tour.fields[keys[k]].s), term) {
      var k :| 0 <= k < |keys| && Contains(Lower(tour.fields[keys[k]].s), term);
      assert k == 0 || k == 1 || k == 2 || k == 3;
    }
    if Contains(Lower(tour.fields["trip_code"].s), term) {
      assert keys[1] == "trip_code";
    }
    if Contains(Lower(tour.fields["region"].s), term) {
      assert keys[2] == "region";
    }
    if Contains(Lower(tour.fields["country"].s), term) {
      assert keys[3] == "country";
    }
  }

  /** Every string contains the empty term, so a tour with a string `trip_name` is kept by an
      empty search without looking further. */
  lemma EmptyTermMatches(tour: Json)
    requires tour.Obj? && "trip_name" in tour.fields && tour.fields["trip_name"].Str?
    ensures Matches(tour, "") == Ok(true)
  {
    assert OccursAt(Lower(tour.fields["trip_name"].s), "", 0);
  }

  /** A record without `trip_name`, such as the `{}` of a page that failed to load, makes the
      filter raise whatever the term; so does anything that is not a dict. */
  lemma MatchesErrors(tour: Json, term: string)
    ensures tour.Obj? && "trip_name" !in tour.fields ==> Matches(tour, term) == Err(MissingKey("trip_name"))
    ensures !tour.Obj? ==> Matches(tour, term) == Err(NotADict)
  {
  }

  /** The comprehension's condition for each tour, in order. */
  function Conditions(tours: seq<Json>, term: string): (c: seq<Result<bool, ViewError>>)
    ensures |c| == |tours|
    ensures forall i :: 0 <= i < |tours| ==> c[i] == Matches(tours[i], term)
  {
    seq(|tours|, i requires 0 <= i < |tours| => Matches(tours[i], term))
  }

  /** The comprehension over the first `n` conditions, as the positions kept, in order; the
      first condition that raises makes the whole comprehension raise. */
  function KeepPrefix(conds: seq<Result<bool, ViewError>>, n: nat): Result<seq<nat>, ViewError>
    requires n <= |conds|
  {
    if n == 0 then Ok([])
    else match KeepPrefix(conds, n - 1)
      case Err(e) => Err(e)
      case Ok(kept) =>
        match conds[n - 1]
        case Err(e) => Err(e)
        case Ok(b) => Ok(if b then kept + [n - 1] else kept)
  }

  /** `filtered_tours`, as the positions in `tours` of the tours kept. */
  function Filtered(tours: seq<Json>, term: string): Result<seq<nat>, ViewError>
  {
    KeepPrefix(Conditions(tours, term), |tours|)
  }

  /** Positions strictly increasing and in range: the kept tours are a subsequence of `tours`
      in their original order, each at most once. */
  ghost predicate Increasing(kept: seq<nat>, bound: nat)
  {
    (forall j :: 0 <= j < |kept| ==> kept[j] < bound)
    && (forall j, l :: 0 <= j < l < |kept| ==> kept[j] < kept[l])
  }

  /** The comprehension succeeds exactly when no condition raises. */
  lemma {:induction false} KeepPrefixOk(conds: seq<Result<bool, ViewError>>, n: nat)
    requires n <= |conds|
    ensures KeepPrefix(conds, n).Ok? <==> forall i :: 0 <= i < n ==> conds[i].Ok?
    decreases n
  {
    if n > 0 {
      KeepPrefixOk(conds, n - 1);
    }
  }

  /** When it succeeds, it keeps, in increasing order, just the positions whose condition
      holds. */
  lemma {:induction false} KeepPrefixKept(conds: seq<Result<bool, ViewError>>, n: nat)
    requires n <= |conds| && KeepPrefix(conds, n).Ok?
    ensures Increasing(KeepPrefix(conds, n).value, n)
    ensures forall i :: 0 <= i < n ==> (i in KeepPrefix(conds, n).value <==> conds[i] == Ok(true))
    decreases n
  {
    if n > 0 {
      var prev := KeepPrefix(conds, n - 1);
      assert prev.Ok?;
      KeepPrefixKept(conds, n - 1);
      var kept := prev.value;
      var now := if conds[n - 1].value then kept + [n - 1] else kept;
      assert KeepPrefix(conds, n) == Ok(now);
      assert n - 1 !in kept;
      forall i | 0 <= i < n
        ensures i in now <==> conds[i] == Ok(true)
      {
        if i < n - 1 {
          assert i in now <==> i in kept;
        }
      }
    }
  }

  /** Conditions that all hold keep every position. */
  lemma {:induction false} KeepPrefixAllTrue(conds: seq<Result<bool, ViewError>>, n: nat)
    requires n <= |conds|
    requires forall i :: 0 <= i < |conds| ==> conds[i] == Ok(true)
    ensures KeepPrefix(conds, n) == Ok(Upto(n))
    decreases n
  {
    if n > 0 {
      KeepPrefixAllTrue(conds, n - 1);
    }
  }

  lemma FilteredSpec(tours: seq<Json>, term: string)
    ensures Filtered(tours, term).Ok? <==> forall i :: 0 <= i < |tours| ==> Matches(tours[i], term).Ok?
    ensures Filtered(tours, term).Ok? ==>
              var kept := Filtered(tours, term).value;
              Increasing(kept, |tours|)
              && forall i :: 0 <= i < |tours| ==> (i in kept <==> Matches(tours[i], term) == Ok(true))
  {
    var conds := Conditions(tours, term);
    KeepPrefixOk(conds, |tours|);
    if Filtered(tours, term).Ok? {
      KeepPrefixKept(conds, |tours|);
    }
  }

  /** The positions `0..n` in order. */
  function Upto(n: nat): (r: seq<nat>)
    ensures |r| == n && forall i :: 0 <= i < n ==> r[i] == i
  {
    if n == 0 then [] else Upto(n - 1) + [n - 1]
  }

  /** An empty search keeps every tour when every `trip_name` is a string. */
  lemma FilteredEmptyTerm(tours: seq<Json>)
    requires forall i :: 0 <= i < |tours| ==>
               tours[i].Obj? && "trip_name" in tours[i].fields && tours[i].fields["trip_name"].Str?
    ensures Filtered(tours, "") == Ok(Upto(|tours|))
  {
    var conds := Conditions(tours, "");
    forall i | 0 <= i < |tours|
      ensures conds[i] == Ok(true)
    {
      EmptyTermMatches(tours[i]);
    }
    KeepPrefixAllTrue(conds, |tours|);
  }

  /** Everything kept was a dict with a `trip_name`. */
  lemma FilteredKeepsDicts(tours: seq<Json>, term: string)
    requires Filtered(tours, term).Ok?
    ensures forall j :: 0 <= j < |Filtered(tours, term).value| ==>
              Filtered(tours, term).value[j] < |tours|
              && tours[Filtered(tours, term).value[j]].Obj?
  {
    FilteredSpec(tours, term);
    var kept := Filtered(tours, term).value;
    forall j | 0 <= j < |kept|
      ensures kept[j] < |tours| && tours[kept[j]].Obj?
    {
      assert kept[j] in kept;
      MatchesErrors(tours[kept[j]], term);
    }
  }

  // ---------------------------------------------------------------- editing

  /** What the four widgets of a tour card return, the user's input or the value they were
      primed with. */
  datatype Edit = Edit(startDate: string, endDate: string, price: string, limited: bool)

  const EditKeys: set<string> := {"start_date", "end_date", "price_aud", "limited_availability"}

  /** The four assignments into the tour dict. */
  function ApplyEdit(fields: map<string, Json>, e: Edit): map<string, Json>
  {
    fields["start_date" := Str(e.startDate)]["end_date" := Str(e.endDate)]
          ["price_aud" := Str(e.price)]["limited_availability" := Bool(e.limited)]
  }

  /** An edit adds or overwrites the four booking fields with the widgets' values and leaves
      every other field as it was. */
  lemma ApplyEditSpec(fields: map<string, Json>, e: Edit)
    ensures ApplyEdit(fields, e).Keys == fields.Keys + EditKeys
    ensures ApplyEdit(fields, e)["start_date"] == Str(e.startDate)
    ensures ApplyEdit(fields, e)["end_date"] == Str(e.endDate)
    ensures ApplyEdit(fields, e)["price_aud"] == Str(e.price)
    ensures ApplyEdit(fields, e)["limited_availability"] == Bool(e.limited)
    ensures forall key :: key in fields && key !in EditKeys ==> ApplyEdit(fields, e)[key] == fields[key]
  {
  }

  /** The tours once the cards at display positions `0..m` have written their widgets back: card
      `j` edits `tours[kept[j]]`, primed from that tour's current fields (`entry(j, fields)` is
      what its widgets return). */
  function EditedTours(tours: seq<Json>, kept: seq<nat>, entry: (nat, map<string, Json>) -> Edit,
                       m: nat): (r: seq<Json>)
    requires m <= |kept|
    ensures |r| == |tours|
  {
    if m == 0 then tours
    else
      var before := EditedTours(tours, kept, entry, m - 1);
      var i := kept[m - 1];
      if i < |before| && before[i].Obj?
      then before[i := Obj(ApplyEdit(before[i].fields, entry(m - 1, before[i].fields)))]
      else before
  }

  /** Card `m` turns the list left by the first `m` cards into the list left by `m + 1`. */
  lemma EditedToursStep(tours: seq<Json>, kept: seq<nat>, entry: (nat, map<string, Json>) -> Edit,
                        m: nat, before: seq<Json>)
    requires m < |kept|
    requires before == EditedTours(tours, kept, entry, m)
    requires kept[m] < |before| && before[kept[m]].Obj?
    ensures EditedTours(tours, kept, entry, m + 1)
            == before[kept[m] := Obj(ApplyEdit(before[kept[m]].fields, entry(m, before[kept[m]].fields)))]
  {
  }

  /** Tours no shown card points at are left alone. */
  lemma {:induction false} EditedToursOthers(tours: seq<Json>, kept: seq<nat>,
                                             entry: (nat, map<string, Json>) -> Edit, m: nat, i: nat)
    requires m <= |kept|
    requires i < |tours| && i !in kept[..m]
    ensures EditedTours(tours, kept, entry, m)[i] == tours[i]
    decreases m
  {
    if m > 0 {
      assert kept[..m - 1] <= kept[..m];
      assert kept[m - 1] in kept[..m];
      EditedToursOthers(tours, kept, entry, m - 1, i);
    }
  }

  /** With distinct positions, card `j` edits its tour exactly once, from the loaded fields. */
  lemma {:induction false} EditedToursShown(tours: seq<Json>, kept: seq<nat>,
                                            entry: (nat, map<string, Json>) -> Edit, m: nat, j: nat)
    requires m <= |kept| && j < m
    requires kept[j] < |tours| && tours[kept[j]].Obj?
    requires forall a, b :: 0 <= a < b < |kept| ==> kept[a] != kept[b]
    ensures EditedTours(tours, kept, entry, m)[kept[j]]
            == Obj(ApplyEdit(tours[kept[j]].fields, entry(j, tours[kept[j]].fields)))
    decreases m
  {
    var i := kept[j];
    if j == m - 1 {
      var earlier := kept[..m - 1];
      forall a | 0 <= a < |earlier| ensures earlier[a] != i {
        assert earlier[a] == kept[a] != kept[j];
      }
      EditedToursOthers(tours, kept, entry, m - 1, i);
    } else {
      EditedToursShown(tours, kept, entry, m - 1, j);
      assert kept[m - 1] != i;
    }
  }

  /** What the first `m` cards do to the list: each shown dict gets its card's edit, made from
      its loaded fields, and every tour no card points at is unchanged. With `ApplyEditSpec`,
      only the four booking fields of shown tours ever change. */
  lemma EditedToursEffect(tours: seq<Json>, kept: seq<nat>,
                          entry: (nat, map<string, Json>) -> Edit, m: nat)
    requires m <= |kept|
    requires forall a, b :: 0 <= a < b < |kept| ==> kept[a] != kept[b]
    ensures forall i :: 0 <= i < |tours| && i !in kept[..m] ==> EditedTours(tours, kept, entry, m)[i] == tours[i]
    ensures forall j :: 0 <= j < m && kept[j] < |tours| && tours[kept[j]].Obj? ==>
              EditedTours(tours, kept, entry, m)[kept[j]]
              == Obj(ApplyEdit(tours[kept[j]].fields, entry(j, tours[kept[j]].fields)))
  {
    forall i | 0 <= i < |tours| && i !in kept[..m]
      ensures EditedTours(tours, kept, entry, m)[i] == tours[i]
    {
      EditedToursOthers(tours, kept, entry, m, i);
    }
    forall j | 0 <= j < m && kept[j] < |tours| && tours[kept[j]].Obj?
      ensures EditedTours(tours, kept, entry, m)[kept[j]]
              == Obj(ApplyEdit(tours[kept[j]].fields, entry(j, tours[kept[j]].fields)))
    {
      EditedToursShown(tours, kept, entry, m, j);
    }
  }

  // ---------------------------------------------------------------- one run of the page

  /** How a run ended: the cards were shown (the kept positions), or the page raised. */
  datatype ViewOutcome = Shown(kept: seq<nat>) | Failed(error: ViewError)

  /** The first card whose tour has no `trip_code` (its expander title raises there), or
      `|kept|` when every shown tour has one. */
  function FirstWithoutCode(tours: seq<Json>, kept: seq<nat>, from: nat): (k: nat)
    requires from <= |kept|
    ensures from <= k <= |kept|
    ensures forall j :: from <= j < k ==> HasCode(tours, kept[j])
    ensures k < |kept| ==> !HasCode(tours, kept[k])
    decreases |kept| - from
  {
    if from == |kept| || !HasCode(tours, kept[from]) then from
    else FirstWithoutCode(tours, kept, from + 1)
  }

  /** Before the stop, a card stops the loop exactly when its tour has no `trip_code`. */
  lemma StopIsFirstMissing(tours: seq<Json>, kept: seq<nat>, k: nat)
    requires k < |kept| && k <= FirstWithoutCode(tours, kept, 0)
    ensures k == FirstWithoutCode(tours, kept, 0) <==> !HasCode(tours, kept[k])
  {
  }

  /** The tour at position `i` is a dict with a `trip_code`. */
  predicate HasCode(tours: seq<Json>, i: nat)
  {
    i < |tours| && tours[i].Obj? && "trip_code" in tours[i].fields
  }

  /** The file after the first `m` cards: the list as it stood after the pressed card when its
      save button was among them, the file as it was otherwise. */
  function SavedFile(tours: seq<Json>, kept: seq<nat>, entry: (nat, map<string, Json>) -> Edit,
                     pressed: Option<nat>, m: nat, initial: Option<Json>): Option<Json>
    requires m <= |kept|
  {
    if pressed.Some? && pressed.value < m
    then Some(Arr(EditedTours(tours, kept, entry, pressed.value + 1)))
    else initial
  }

  class TourViewer {
    /** The contents of `scraper/tour_info.json`, `None` when it does not exist. */
    var file: Option<Json>
    /** The script's `tours` list as the current run left it. */
    var tours: seq<Json>

    constructor(initial: Option<Json>)
      ensures file == initial && tours == []
    {
      file := initial;
      tours := [];
    }

    /** One run: load, filter on the lowered search input, then show each kept tour in order,
        writing its widgets back into it and saving all of `tours` when its save button is the
        one pressed (`pressed` is that card's display position). */
    method Run(searchInput: string, entry: (nat, map<string, Json>) -> Edit, pressed: Option<nat>)
      returns (outcome: ViewOutcome)
      modifies this
      ensures var loaded := LoadTours(old(file));
              var filtered := Filtered(loaded, Lower(searchInput));
              if filtered.Err? then
                outcome == Failed(filtered.error) && tours == loaded && file == old(file)
              else
                var kept := filtered.value;
                var stop := FirstWithoutCode(loaded, kept, 0);
                outcome == (if stop < |kept| then Failed(MissingKey("trip_code")) else Shown(kept))
                && tours == EditedTours(loaded, kept, entry, stop)
                && file == (if pressed.Some? && pressed.value < stop
                            then Some(Arr(EditedTours(loaded, kept, entry, pressed.value + 1)))
                            else old(file))
    {
      tours := LoadTours(file);
      ghost var loaded := tours;
      var searchTerm := Lower(searchInput);
      var filtered := Filtered(tours, searchTerm);
      if filtered.Err? {
        outcome := Failed(filtered.error);
        return;
      }
      var kept := filtered.value;
      FilteredKeepsOk(loaded, searchTerm);
      outcome := ShowCards(kept, entry, pressed);
    }

    /** Card `k`: its four widgets' values overwrite the tour's booking fields, and a press of
        its save button writes the whole list, edits so far included, to the file. */
    method EditCard(kept: seq<nat>, entry: (nat, map<string, Json>) -> Edit, k: nat,
                    pressed: Option<nat>, ghost loaded: seq<Json>, ghost initial: Option<Json>)
      modifies this
      requires k < |kept| && kept[k] < |tours| && tours[kept[k]].Obj?
      requires tours == EditedTours(loaded, kept, entry, k)
      requires file == SavedFile(loaded, kept, entry, pressed, k, initial)
      ensures tours == EditedTours(loaded, kept, entry, k + 1)
      ensures file == if pressed == Some(k) then Some(Arr(tours)) else old(file)
      ensures file == SavedFile(loaded, kept, entry, pressed, k + 1, initial)
    {
      var tour := tours[kept[k]];
      ghost var before := tours;
      tours := tours[kept[k] := Obj(ApplyEdit(tour.fields, entry(k, tour.fields)))];
      EditedToursStep(loaded, kept, entry, k, before);
      if pressed == Some(k) {
        file := Some(Arr(tours));
      }
    }

    /** The cards loop over the kept positions of the list just loaded into `tours`. */
    method ShowCards(kept: seq<nat>, entry: (nat, map<string, Json>) -> Edit, pressed: Option<nat>)
      returns (outcome: ViewOutcome)
      modifies this
      requires forall j :: 0 <= j < |kept| ==> kept[j] < |tours| && tours[kept[j]].Obj?
      requires forall a, b :: 0 <= a < b < |kept| ==> kept[a] != kept[b]
      ensures var stop := FirstWithoutCode(old(tours), kept, 0);
              outcome == (if stop < |kept| then Failed(MissingKey("trip_code")) else Shown(kept))
              && tours == EditedTours(old(tours), kept, entry, stop)
              && file == SavedFile(old(tours), kept, entry, pressed, stop, old(file))
    {
      ghost var loaded := tours;
      ghost var stop := FirstWithoutCode(loaded, kept, 0);
      var k := 0;
      while k < |kept|
        invariant 0 <= k <= stop
        invariant tours == EditedTours(loaded, kept, entry, k)
        invariant file == SavedFile(loaded, kept, entry, pressed, k, old(file))
      {
        DistinctNotBefore(kept, k);
        EditedToursOthers(loaded, kept, entry, k, kept[k]);
        StopIsFirstMissing(loaded, kept, k);
        var tour := tours[kept[k]];
        assert tour == loaded[kept[k]];
        if "trip_code" !in tour.fields {
          outcome := Failed(MissingKey("trip_code"));
          return;
        }
        EditCard(kept, entry, k, pressed, loaded, old(file));
        k := k + 1;
      }
      outcome := Shown(kept);
    }
  }

  /** In a sequence of distinct positions, no position occurs before its own place. */
  lemma DistinctNotBefore(kept: seq<nat>, k: nat)
    requires k < |kept|
    requires forall a, b :: 0 <= a < b < |kept| ==> kept[a] != kept[b]
    ensures kept[k] !in kept[..k]
  {
    forall a | 0 <= a < k ensures kept[..k][a] != kept[k] {
      assert kept[a] != kept[k];
    }
  }

  /** A successful filter keeps distinct positions of dicts. */
  lemma FilteredKeepsOk(tours: seq<Json>, term: string)
    requires Filtered(tours, term).Ok?
    ensures forall j :: 0 <= j < |Filtered(tours, term).value| ==>
              Filtered(tours, term).value[j] < |tours|
              && tours[Filtered(tours, term).value[j]].Obj?
    ensures forall a, b :: 0 <= a < b < |Filtered(tours, term).value| ==>
              Filtered(tours, term).value[a] != Filtered(tours, term).value[b]
  {
    FilteredKeepsDicts(tours, term);
    FilteredSpec(tours, term);
  }
}
