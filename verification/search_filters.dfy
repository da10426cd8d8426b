/** `components/search-filters.tsx`: the filter popover's editing of a
    `SearchFilters` record (checkbox lists, date bounds, apply, reset) and
    the active-filter badge count. */
module SearchFiltersPanel {
  import opened Types
  import opened Seqs

  /** The ids behind the two groups of checkboxes. */
  const FileTypeIds: seq<string> := ["pdf", "doc", "image", "spreadsheet"]
  const ProviderIds: seq<string> := ["google-drive", "dropbox", "onedrive"]

  /** `{}`: no filter of any kind. */
  const NoFilters: SearchFilters := SearchFilters(None, None, None)

  /** `list || []`: an absent list reads as empty. */
  function IdsOrEmpty(ids: Option<seq<string>>): seq<string>
  {
    if ids.Some? then ids.value else []
  }

  /** Whether a checkbox is shown checked: `list?.includes(id)`. */
  predicate IsChecked(ids: Option<seq<string>>, id: string)
  {
    ids.Some? && id in ids.value
  }

  predicate Distinct(s: seq<string>)
  {
    forall i, j :: 0 <= i < j < |s| ==> s[i] != s[j]
  }

  /** The test of `list.filter((t) => t !== id)`. */
  function Unequal(id: string): string -> bool
  {
    (t: string) => t != id
  }

  /** The list update both checkbox handlers make: checking appends the id at
      the end, unchecking drops every copy of it and keeps the rest in order. */
  function ToggleId(ids: Option<seq<string>>, id: string, checked: bool): (r: seq<string>)
    ensures checked ==> |r| == |IdsOrEmpty(ids)| + 1 && r[..|IdsOrEmpty(ids)|] == IdsOrEmpty(ids) && r[|IdsOrEmpty(ids)|] == id
    ensures !checked ==> id !in r && IsSubsequence(r, IdsOrEmpty(ids))
    ensures !checked ==> forall x :: x in IdsOrEmpty(ids) && x != id ==> x in r
    ensures !checked ==> multiset(r) == multiset(IdsOrEmpty(ids))[id := 0]
    ensures !checked ==> |r| == |IdsOrEmpty(ids)| - multiset(IdsOrEmpty(ids))[id]
  {
    var list := IdsOrEmpty(ids);
    if checked then list + [id]
    else
      FilterMultiset(Unequal(id), list);
      FilterOutCount(list, id);
      Filter(Unequal(id), list)
  }

  /** `handleFileTypeChange`: only `fileType` changes. */
  function HandleFileTypeChange(prev: SearchFilters, typeId: string, checked: bool): (r: SearchFilters)
    ensures r.fileType == Some(ToggleId(prev.fileType, typeId, checked))
    ensures r.provider == prev.provider && r.dateRange == prev.dateRange
  {
    prev.(fileType := Some(ToggleId(prev.fileType, typeId, checked)))
  }

  /** `handleProviderChange`: only `provider` changes. */
  function HandleProviderChange(prev: SearchFilters, providerId: string, checked: bool): (r: SearchFilters)
    ensures r.provider == Some(ToggleId(prev.provider, providerId, checked))
    ensures r.fileType == prev.fileType && r.dateRange == prev.dateRange
  {
    prev.(provider := Some(ToggleId(prev.provider, providerId, checked)))
  }

  datatype Bound = From | To

  /** The date range as the spread `{...prev.dateRange}` sees it. */
  function RangeOrEmpty(range: Option<DateRange>): DateRange
  {
    if range.Some? then range.value else DateRange(None, None)
  }

  /** `handleDateChange`: sets one bound (to a date, or back to nothing) and
      keeps the other bound and both lists. */
  function HandleDateChange(prev: SearchFilters, date: Option<Date>, bound: Bound): (r: SearchFilters)
    ensures r.fileType == prev.fileType && r.provider == prev.provider
    ensures r.dateRange.Some?
    ensures bound == From ==> r.dateRange.value.from == date && r.dateRange.value.to == RangeOrEmpty(prev.dateRange).to
    ensures bound == To ==> r.dateRange.value.to == date && r.dateRange.value.from == RangeOrEmpty(prev.dateRange).from
  {
    var range := RangeOrEmpty(prev.dateRange);
    prev.(dateRange := Some(if bound == From then range.(from := date) else range.(to := date)))
  }

  /** The popover's own state: whether it is open, and the filters being edited. */
  datatype Panel = Panel(isOpen: bool, localFilters: SearchFilters)

  /** A panel transition together with the value handed to `onFiltersChange`. */
  datatype PanelStep = PanelStep(panel: Panel, notified: SearchFilters)

  /** The state a panel starts in: closed, editing a copy of the given filters. */
  function InitialPanel(filters: SearchFilters): (p: Panel)
    ensures !p.isOpen && p.localFilters == filters
  {
    Panel(false, filters)
  }

  /** `handleApply`: hands the edited filters to the parent and closes. */
  function Apply(p: Panel): (r: PanelStep)
    ensures r.notified == p.localFilters
    ensures !r.panel.isOpen && r.panel.localFilters == p.localFilters
  {
    PanelStep(p.(isOpen := false), p.localFilters)
  }

  /** `handleReset`: clears the edited filters and hands `{}` to the parent;
      the popover stays as it was. */
  function Reset(p: Panel): (r: PanelStep)
    ensures r.notified == NoFilters && r.panel.localFilters == NoFilters
    ensures r.panel.isOpen == p.isOpen
    ensures ActiveFilterCount(r.notified) == 0
  {
    PanelStep(p.(localFilters := NoFilters), NoFilters)
  }

  /** Either date bound is set (a `Date` object is always truthy). */
  predicate HasDateBound(f: SearchFilters)
  {
    f.dateRange.Some? && (f.dateRange.value.from.Some? || f.dateRange.value.to.Some?)
  }

  /** The number on the filter badge: one per checked file type, one per
      checked provider, and one for the date range if either bound is set. */
  function ActiveFilterCount(f: SearchFilters): (n: nat)
    ensures |IdsOrEmpty(f.fileType)| + |IdsOrEmpty(f.provider)| <= n <= |IdsOrEmpty(f.fileType)| + |IdsOrEmpty(f.provider)| + 1
    ensures HasDateBound(f) ==> n > 0
  {
    |IdsOrEmpty(f.fileType)| + |IdsOrEmpty(f.provider)| + (if HasDateBound(f) then 1 else 0)
  }

  /** `getActiveFiltersCount`, accumulating as the component does. */
  method GetActiveFiltersCount(f: SearchFilters) returns (count: nat)
    ensures count == ActiveFilterCount(f)
  {
    count := 0;
    if f.fileType.Some? && |f.fileType.value| > 0 {
      count := count + |f.fileType.value|;
    }
    if f.provider.Some? && |f.provider.value| > 0 {
      count := count + |f.provider.value|;
    }
    if f.dateRange.Some? && (f.dateRange.value.from.Some? || f.dateRange.value.to.Some?) {
      count := count + 1;
    }
  }

  /** The badge is hidden exactly when nothing is checked and no date bound is set. */
  lemma CountZeroIffEmpty(f: SearchFilters)
    ensures ActiveFilterCount(f) == 0 <==>
      IdsOrEmpty(f.fileType) == [] && IdsOrEmpty(f.provider) == [] && !HasDateBound(f)
  {
  }

  /** Removing every copy of `id` shortens the list by the number of copies. */
  lemma {:induction false} FilterOutCount(s: seq<string>, id: string)
    ensures |Filter(Unequal(id), s)| == |s| - multiset(s)[id]
    decreases |s|
  {
    if s != [] {
      FilterOutCount(s[1..], id);
      assert s == [s[0]] + s[1..];
      assert multiset(s) == multiset{s[0]} + multiset(s[1..]);
    }
  }

  /** Checking a file type raises the badge count by one, even when the id is
      already in the list (no de-duplication). */
  lemma CheckFileTypeCounts(f: SearchFilters, id: string)
    ensures ActiveFilterCount(HandleFileTypeChange(f, id, true)) == ActiveFilterCount(f) + 1
    ensures multiset(HandleFileTypeChange(f, id, true).fileType.value)[id] == multiset(IdsOrEmpty(f.fileType))[id] + 1
  {
    var list := IdsOrEmpty(f.fileType);
    assert HandleFileTypeChange(f, id, true).fileType.value == list + [id];
  }

  /** Unchecking a file type lowers the badge count by the number of copies removed. */
  lemma UncheckFileTypeCounts(f: SearchFilters, id: string)
    ensures ActiveFilterCount(HandleFileTypeChange(f, id, false))
         == ActiveFilterCount(f) - multiset(IdsOrEmpty(f.fileType))[id]
  {
    FilterOutCount(IdsOrEmpty(f.fileType), id);
  }

  /** Unchecking an id that is not in the list leaves the list as it was. */
  lemma {:induction false} UncheckAbsent(s: seq<string>, id: string)
    requires id !in s
    ensures Filter(Unequal(id), s) == s
  {
    FilterKeepsAll(Unequal(id), s);
  }

  /** Round trip on one list: checking an id that is not listed and then
      unchecking it gives back the list (an absent list comes back empty). */
  lemma ToggleRoundTrip(ids: Option<seq<string>>, id: string)
    requires !IsChecked(ids, id)
    ensures ToggleId(Some(ToggleId(ids, id, true)), id, false) == IdsOrEmpty(ids)
  {
    var list := IdsOrEmpty(ids);
    FilterAppend(Unequal(id), list, [id]);
    UncheckAbsent(list, id);
    assert Filter(Unequal(id), [id]) == [];
    assert ToggleId(ids, id, true) == list + [id];
  }

  /** Checking a file type that is not listed and then unchecking it restores
      the file-type list and touches nothing else. */
  lemma CheckThenUncheckFileType(f: SearchFilters, id: string)
    requires !IsChecked(f.fileType, id)
    ensures HandleFileTypeChange(HandleFileTypeChange(f, id, true), id, false)
         == f.(fileType := Some(IdsOrEmpty(f.fileType)))
  {
    ToggleRoundTrip(f.fileType, id);
  }

  /** The same round trip for a provider. */
  lemma CheckThenUncheckProvider(f: SearchFilters, id: string)
    requires !IsChecked(f.provider, id)
    ensures HandleProviderChange(HandleProviderChange(f, id, true), id, false)
         == f.(provider := Some(IdsOrEmpty(f.provider)))
  {
    ToggleRoundTrip(f.provider, id);
  }

  /** Filtering a list without repeats leaves no repeats. */
  lemma {:induction false} FilterKeepsDistinct(p: string -> bool, s: seq<string>)
    requires Distinct(s)
    ensures Distinct(Filter(p, s))
    decreases |s|
  {
    if s != [] {
      FilterKeepsDistinct(p, s[1..]);
      if p(s[0]) {
        var rest := Filter(p, s[1..]);
        assert s[0] !in s[1..];
        assert s[0] !in rest;
        assert Filter(p, s) == [s[0]] + rest;
      }
    }
  }

  /** A checkbox click passes the opposite of what the box shows, so clicks
      alone never put an id into a file-type or provider list twice. */
  lemma ClickKeepsDistinct(ids: Option<seq<string>>, id: string)
    requires Distinct(IdsOrEmpty(ids))
    ensures Distinct(ToggleId(ids, id, !IsChecked(ids, id)))
  {
    var list := IdsOrEmpty(ids);
    if IsChecked(ids, id) {
      FilterKeepsDistinct(Unequal(id), list);
    } else {
      assert id !in list;
    }
  }

  /** Resetting twice is resetting once: same panel, same value sent. */
  lemma ResetIdempotent(p: Panel)
    ensures Reset(Reset(p).panel) == Reset(p)
  {
  }

  /** A list as checkbox clicks leave it: no repeats, and only offered ids. */
  predicate FromCheckboxes(ids: Option<seq<string>>, options: seq<string>)
  {
    Distinct(IdsOrEmpty(ids)) && forall x :: x in IdsOrEmpty(ids) ==> x in options
  }

  /** Clicking one of the offered boxes keeps a list made by clicks. */
  lemma ClickKeepsFromCheckboxes(ids: Option<seq<string>>, id: string, options: seq<string>)
    requires FromCheckboxes(ids, options) && id in options
    ensures FromCheckboxes(Some(ToggleId(ids, id, !IsChecked(ids, id))), options)
  {
    ClickKeepsDistinct(ids, id);
  }

  /** With lists made by clicks on the four file-type and three provider
      boxes, the badge never shows more than 8. */
  lemma BadgeAtMostEight(f: SearchFilters)
    requires FromCheckboxes(f.fileType, FileTypeIds) && FromCheckboxes(f.provider, ProviderIds)
    ensures ActiveFilterCount(f) <= |FileTypeIds| + |ProviderIds| + 1 == 8
  {
    assert Distinct(FileTypeIds);
    assert Distinct(ProviderIds);
    DistinctWithin(IdsOrEmpty(f.fileType), FileTypeIds);
    DistinctWithin(IdsOrEmpty(f.provider), ProviderIds);
  }

  /** A list without repeats drawn from a list without repeats is no longer. */
  lemma DistinctWithin(s: seq<string>, options: seq<string>)
    requires Distinct(s) && Distinct(options)
    requires forall x :: x in s ==> x in options
    ensures |s| <= |options|
  {
    DistinctElements(s);
    DistinctElements(options);
    SubsetSize(Elements(s), Elements(options));
  }

  function Elements(s: seq<string>): set<string>
  {
    set x | x in s
  }

  lemma {:induction false} DistinctElements(s: seq<string>)
    requires Distinct(s)
    ensures |Elements(s)| == |s|
    decreases |s|
  {
    if s != [] {
      DistinctElements(s[1..]);
      assert Elements(s) == {s[0]} + Elements(s[1..]);
      assert s[0] !in s[1..];
    }
  }

  lemma {:induction false} SubsetSize(a: set<string>, b: set<string>)
    requires a <= b
    ensures |a| <= |b|
    decreases |a|
  {
    if a != {} {
      var x :| x in a;
      SubsetSize(a - {x}, b - {x});
    }
  }
}
