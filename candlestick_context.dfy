/**
 * The web app's shared candlestick state (backend/webapp/rgb_app/src/CandlestickContext.tsx):
 * the list the last poll fetched, the selected id, and the rule that picks a selection after
 * each poll. The React state setters only publish what these functions compute; the ids handed
 * to `setCurrentCandlestickId` are kept in `published`.
 */
module CandlestickContext {
  import opened Wrappers

  /** The fields of a listed candlestick the selection rule looks at. */
  datatype Candlestick = Candlestick(id: string, connected: bool)

  datatype ContextState = ContextState(
    candlesticks: seq<Candlestick>,
    selectedId: string,
    loading: bool,
    error: Option<string>,
    published: seq<string>)

  /** The provider before its first poll: no list, no selection, loading. */
  function Initial(): (s: ContextState)
    ensures s.candlesticks == [] && s.selectedId == "" && s.loading && s.error.None? && s.published == []
  {
    ContextState([], "", true, None, [])
  }

  /** `Array.prototype.find`: the index of the first element satisfying `p`, if any. */
  function Find(sticks: seq<Candlestick>, p: Candlestick -> bool): (r: Option<nat>)
    ensures r.Some? ==> r.value < |sticks| && p(sticks[r.value]) && forall j :: 0 <= j < r.value ==> !p(sticks[j])
    ensures r.None? ==> forall j :: 0 <= j < |sticks| ==> !p(sticks[j])
    decreases |sticks|
  {
    if sticks == [] then None
    else if p(sticks[0]) then Some(0)
    else
      match Find(sticks[1..], p)
      case None => None
      case Some(i) => Some(i + 1)
  }

  /** Whether some listed candlestick has the id (`sticks.some(c => c.id === id)`). */
  predicate Listed(sticks: seq<Candlestick>, id: string) {
    exists k :: 0 <= k < |sticks| && sticks[k].id == id
  }

  /** The id the poll would switch to: the first connected one's, unless that is falsy, else the first one's. */
  function Fallback(sticks: seq<Candlestick>): string
    requires |sticks| > 0
  {
    var firstConnected := Find(sticks, (c: Candlestick) => c.connected);
    var candidate := if firstConnected.Some? then sticks[firstConnected.value].id else "";
    if candidate != "" then candidate else sticks[0].id
  }

  /** Whether a poll that fetched `sticks` replaces the selection. */
  predicate Reselects(sticks: seq<Candlestick>, selectedId: string) {
    (selectedId == "" || Find(sticks, (c: Candlestick) => c.id == selectedId).None?) && |sticks| > 0
  }

  /** The selection after a poll that fetched `sticks`. */
  function AutoSelect(sticks: seq<Candlestick>, selectedId: string): string {
    if Reselects(sticks, selectedId) then Fallback(sticks) else selectedId
  }

  /** One run of `fetchCandlesticks`, given what `listCandlesticks` returned or that it threw. */
  function Poll(s: ContextState, fetched: Option<seq<Candlestick>>): ContextState {
    match fetched
    case None => s.(error := Some("Failed to connect to backend"), loading := false)
    case Some(sticks) =>
      var chosen := AutoSelect(sticks, s.selectedId);
      s.(candlesticks := sticks, error := None, loading := false,
         selectedId := chosen,
         published := if Reselects(sticks, s.selectedId) then s.published + [chosen] else s.published)
  }

  /** `setSelectedId`: the user's choice, published as it is, whether or not it is listed. */
  function Select(s: ContextState, id: string): (t: ContextState)
    ensures t.selectedId == id && t.published == s.published + [id] && t.candlesticks == s.candlesticks
  {
    s.(selectedId := id, published := s.published + [id])
  }

  /** `selectedCandlestick`: the first listed candlestick with the selected id, or null. */
  function SelectedCandlestick(s: ContextState): Option<Candlestick> {
    match Find(s.candlesticks, (c: Candlestick) => c.id == s.selectedId)
    case None => None
    case Some(k) => Some(s.candlesticks[k])
  }

  // ---------------------------------------------------------------------------
  // The selection rule
  // ---------------------------------------------------------------------------

  /** `some` and `find` by id agree. */
  lemma FindByIdIffListed(sticks: seq<Candlestick>, id: string)
    ensures Find(sticks, (c: Candlestick) => c.id == id).Some? <==> Listed(sticks, id)
  {
    var r := Find(sticks, (c: Candlestick) => c.id == id);
    if r.Some? {
      assert sticks[r.value].id == id;
    }
  }

  /** A non-empty selection that is listed is kept, and nothing is published. */
  lemma ListedSelectionKept(sticks: seq<Candlestick>, selectedId: string)
    requires selectedId != "" && Listed(sticks, selectedId)
    ensures !Reselects(sticks, selectedId) && AutoSelect(sticks, selectedId) == selectedId
  {
    FindByIdIffListed(sticks, selectedId);
  }

  /** An empty fetched list leaves the selection as it was. */
  lemma EmptyListKeepsSelection(selectedId: string)
    ensures !Reselects([], selectedId) && AutoSelect([], selectedId) == selectedId
  {
  }

  /**
   * An empty or unlisted selection over a non-empty list moves to the first connected
   * candlestick, when its id is not empty.
   */
  lemma ReselectsFirstConnected(sticks: seq<Candlestick>, selectedId: string, k: nat)
    requires |sticks| > 0 && (selectedId == "" || !Listed(sticks, selectedId))
    requires k < |sticks| && sticks[k].connected && sticks[k].id != ""
    requires forall j :: 0 <= j < k ==> !sticks[j].connected
    ensures Reselects(sticks, selectedId) && AutoSelect(sticks, selectedId) == sticks[k].id
  {
    FindByIdIffListed(sticks, selectedId);
  }

  /** With no candlestick connected, an empty or unlisted selection moves to the first one listed. */
  lemma ReselectsFirstListed(sticks: seq<Candlestick>, selectedId: string)
    requires |sticks| > 0 && (selectedId == "" || !Listed(sticks, selectedId))
    requires forall j :: 0 <= j < |sticks| ==> !sticks[j].connected
    ensures Reselects(sticks, selectedId) && AutoSelect(sticks, selectedId) == sticks[0].id
  {
    FindByIdIffListed(sticks, selectedId);
  }

  /** After a poll that fetched a non-empty list, the selection names a fetched candlestick. */
  lemma PollSelectsListed(s: ContextState, sticks: seq<Candlestick>)
    requires |sticks| > 0
    ensures var t := Poll(s, Some(sticks));
            Listed(t.candlesticks, t.selectedId) && SelectedCandlestick(t).Some?
            && SelectedCandlestick(t).value.id == t.selectedId
  {
    var t := Poll(s, Some(sticks));
    FindByIdIffListed(sticks, s.selectedId);
    if Reselects(sticks, s.selectedId) {
      var r := Find(sticks, (c: Candlestick) => c.connected);
      if r.Some? && sticks[r.value].id != "" {
        assert sticks[r.value].id == t.selectedId;
      } else {
        assert sticks[0].id == t.selectedId;
      }
    }
    FindByIdIffListed(sticks, t.selectedId);
  }

  /**
   * Polling the same list again keeps the selection; it publishes nothing more unless the
   * selection is the empty id, which is falsy and so is picked and published again each poll.
   */
  lemma PollAgainSettled(s: ContextState, sticks: seq<Candlestick>)
    ensures var t := Poll(s, Some(sticks));
            && Poll(t, Some(sticks)).selectedId == t.selectedId
            && (t.selectedId != "" ==> Poll(t, Some(sticks)).published == t.published)
            && (t.selectedId == "" && |sticks| > 0 ==> Poll(t, Some(sticks)).published == t.published + [""])
  {
    var t := Poll(s, Some(sticks));
    if |sticks| > 0 {
      PollSelectsListed(s, sticks);
      if t.selectedId != "" {
        ListedSelectionKept(sticks, t.selectedId);
      } else {
        assert Reselects(sticks, s.selectedId);
      }
    }
  }

  /** A failed fetch keeps the list and the selection, reports the error and stops loading. */
  lemma FailedPollKeepsList(s: ContextState)
    ensures var t := Poll(s, None);
            t.candlesticks == s.candlesticks && t.selectedId == s.selectedId && t.published == s.published
            && t.error == Some("Failed to connect to backend") && !t.loading
  {
  }

  /** A successful fetch replaces the list, clears the error and stops loading. */
  lemma SuccessfulPollReplacesList(s: ContextState, sticks: seq<Candlestick>)
    ensures var t := Poll(s, Some(sticks));
            t.candlesticks == sticks && t.error.None? && !t.loading
            && (t.published == s.published || t.published == s.published + [t.selectedId])
  {
  }
}
