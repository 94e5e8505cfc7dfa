/**
 * The report viewer: six tabs selecting one content panel each, a one-shot
 * audio briefing, and the hand-off of a generated video URL both to the
 * viewer's own copy of the report and to the list kept in storage.
 */
module AuditResults {
  import opened Wrappers
  import opened Types
  import opened Storage
  import FeatureMatrix
  import ReviewAnalysis
  import VideoBriefing

  /** The tab ids, in the order the tab bar shows them. */
  const TabIds: seq<string> := ["overview", "media", "battlecard", "features", "sentiment", "tech"]

  /** There are six tabs and no two share an id. */
  lemma TabIdsDistinct()
    ensures |TabIds| == 6
    ensures forall i, j :: 0 <= i < j < |TabIds| ==> TabIds[i] != TabIds[j]
  {
  }

  /** The content area under the tab bar. */
  datatype Content =
    | Summary(summary: string, swot: SwotData, techStack: seq<string>)
    | Media(audit: AuditResult)
    | Offense(battlecard: BattlecardData, companyName: string)
    | Features(rows: seq<FeatureMatrix.Row>)
    | Sentiment(cards: seq<ReviewAnalysis.SentimentCard>)
    | Tech(stack: seq<string>)
    | NoContent

  /** The panel for the active tab; an unknown tab id renders nothing. */
  function ContentFor(current: AuditResult, activeTab: string): (c: Content)
    ensures c == NoContent <==> activeTab !in TabIds
    ensures c.Summary? <==> activeTab == TabIds[0]
    ensures c.Media? <==> activeTab == TabIds[1]
    ensures c.Offense? <==> activeTab == TabIds[2]
    ensures c.Features? <==> activeTab == TabIds[3]
    ensures c.Sentiment? <==> activeTab == TabIds[4]
    ensures c.Tech? <==> activeTab == TabIds[5]
  {
    if activeTab == "overview" then Summary(current.summary, current.swot, current.techStack)
    else if activeTab == "media" then Media(current)
    else if activeTab == "battlecard" then Offense(current.battlecard, current.companyName)
    else if activeTab == "features" then Features(FeatureMatrix.MatrixRows(current.featureGap))
    else if activeTab == "sentiment" then Sentiment(ReviewAnalysis.Cards(current.sentiment))
    else if activeTab == "tech" then Tech(current.techStack)
    else NoContent
  }

  /** Different tabs never show the same kind of panel. */
  lemma TabsShowDifferentPanels(current: AuditResult, i: nat, j: nat)
    requires i < j < |TabIds|
    ensures ContentFor(current, TabIds[i]) != ContentFor(current, TabIds[j])
  {
    TabIdsDistinct();
    var c := ContentFor(current, TabIds[j]);
    if i == 0 {
      assert !c.Summary?;
    } else if i == 1 {
      assert !c.Media?;
    } else if i == 2 {
      assert !c.Offense?;
    } else if i == 3 {
      assert !c.Features?;
    } else {
      assert !c.Sentiment?;
    }
  }

  /** The viewer's own copy of the report and its audio spinner. */
  datatype Viewer = Viewer(current: AuditResult, audioLoading: bool)

  /** The result of pressing the audio button: the new viewer, and whether audio was requested. */
  datatype AudioRun = AudioRun(viewer: Viewer, requested: bool)

  /**
   * The audio button. A report that already has audio is left alone and no
   * request is made. Otherwise audio is requested; success sets the audio URL
   * and nothing else, failure leaves the report as it was, and the spinner is
   * off afterwards either way.
   */
  function AudioBriefing(v: Viewer, outcome: Result<string, string>): (r: AudioRun)
    ensures r.requested <==> !IsSet(v.current.audioUrl)
    ensures !r.requested ==> r.viewer == v
    ensures r.requested ==> !r.viewer.audioLoading
    ensures r.requested && outcome.Success? ==> r.viewer.current == v.current.(audioUrl := Some(outcome.value))
    ensures r.requested && outcome.Failure? ==> r.viewer.current == v.current
  {
    if IsSet(v.current.audioUrl) then AudioRun(v, false)
    else
      match outcome
      case Success(url) => AudioRun(Viewer(v.current.(audioUrl := Some(url)), false), true)
      case Failure(_) => AudioRun(Viewer(v.current, false), true)
  }

  /** Once audio has been produced, pressing the button again requests nothing. */
  lemma AudioAtMostOnce(v: Viewer, url: string, later: Result<string, string>)
    requires !IsSet(v.current.audioUrl) && url != ""
    ensures var first := AudioBriefing(v, Success(url));
      && first.requested
      && !AudioBriefing(first.viewer, later).requested
      && AudioBriefing(first.viewer, later).viewer == first.viewer
  {
  }

  /**
   * The stored list with its first report of the given id replaced; every
   * other entry and the length are unchanged, and a list without that id is
   * returned as it was.
   */
  function ReplaceFirst(list: seq<AuditResult>, id: string, updated: AuditResult): (r: seq<AuditResult>)
    ensures |r| == |list|
    ensures IndexOfId(list, id) == -1 ==> r == list
    ensures IndexOfId(list, id) >= 0 ==>
      && r[IndexOfId(list, id)] == updated
      && forall i :: 0 <= i < |list| && i != IndexOfId(list, id) ==> r[i] == list[i]
  {
    var k := IndexOfId(list, id);
    if k == -1 then list else list[k := updated]
  }

  /** What handing a video URL to the viewer does. */
  datatype VideoUpdate = VideoUpdate(current: AuditResult, stored: Blob, thrown: bool)

  /**
   * The viewer's copy gains the video URL and nothing else. The stored list is
   * rewritten only when it exists and holds the report's id (`id`, the id the
   * viewer was opened with); a stored blob that does not parse makes the
   * handler throw, after the viewer's copy has been updated.
   */
  function VideoGenerated(current: AuditResult, id: string, stored: Blob, url: string): (u: VideoUpdate)
    ensures u.current == current.(videoUrl := Some(url))
    ensures u.thrown <==> stored == Malformed
    ensures !stored.Written? ==> u.stored == stored
    ensures stored.Written? && IndexOfId(stored.list, id) == -1 ==> u.stored == stored
    ensures stored.Written? && IndexOfId(stored.list, id) >= 0 ==>
      u.stored == Written(ReplaceFirst(stored.list, id, u.current))
  {
    var updated := current.(videoUrl := Some(url));
    match stored
    case Absent => VideoUpdate(updated, stored, false)
    case Malformed => VideoUpdate(updated, stored, true)
    case Written(list) =>
      if IndexOfId(list, id) == -1 then VideoUpdate(updated, stored, false)
      else VideoUpdate(updated, Written(ReplaceFirst(list, id, updated)), false)
  }

  /** In the stored list, exactly the first entry with the id becomes the updated report. */
  lemma StoredVideoReplacesFirstMatch(current: AuditResult, id: string, list: seq<AuditResult>, url: string, k: nat)
    requires k < |list| && list[k].id == id
    requires forall i :: 0 <= i < k ==> list[i].id != id
    ensures var u := VideoGenerated(current, id, Written(list), url);
      && u.stored.Written?
      && |u.stored.list| == |list|
      && u.stored.list[k] == current.(videoUrl := Some(url))
      && u.stored.list[..k] == list[..k]
      && u.stored.list[k + 1..] == list[k + 1..]
  {
    assert IndexOfId(list, id) == k;
    var u := VideoGenerated(current, id, Written(list), url);
    assert forall i :: 0 <= i < k ==> u.stored.list[i] == list[i];
    assert forall i :: k < i < |list| ==> u.stored.list[i] == list[i];
  }

  /** The state touched by one press of the video button. */
  datatype VideoRun = VideoRun(viewer: Viewer, stored: Blob, generation: VideoBriefing.Generation)

  /**
   * One press of the video button, end to end: the video is produced (or not)
   * while `ticks` progress ticks pass, and a produced URL is handed to the
   * viewer. `parseError` is the message of the error an unparseable stored
   * list raises; it reaches the user through the panel's alert.
   */
  function GenerateVideo(v: Viewer, id: string, panel: VideoBriefing.BriefingState, stored: Blob,
                         ticks: nat, outcome: Result<string, string>, parseError: string): (run: VideoRun)
    ensures !run.generation.state.generating
    ensures outcome.Failure? ==> run.viewer == v && run.stored == stored && run.generation.delivered == []
    ensures outcome.Success? ==> run.viewer.current == v.current.(videoUrl := Some(outcome.value))
    ensures outcome.Success? && stored == Malformed ==>
      run.generation.alert == Some(VideoBriefing.FailurePrefix + parseError)
  {
    match outcome
    case Failure(_) =>
      VideoRun(v, stored, VideoBriefing.StartGeneration(panel, ticks, outcome, None))
    case Success(url) =>
      var u := VideoGenerated(v.current, id, stored, url);
      var handOff := if u.thrown then Some(parseError) else None;
      VideoRun(v.(current := u.current), u.stored, VideoBriefing.StartGeneration(panel, ticks, outcome, handOff))
  }

  /** After a successful generation the panel shows the new video and offers no second generation. */
  lemma GeneratedVideoIsShown(v: Viewer, id: string, panel: VideoBriefing.BriefingState, stored: Blob,
                              ticks: nat, url: string, parseError: string)
    requires url != ""
    ensures var run := GenerateVideo(v, id, panel, stored, ticks, Success(url), parseError);
      VideoBriefing.Render(run.viewer.current.videoUrl, run.generation.state) == VideoBriefing.Player(url)
  {
  }
}
