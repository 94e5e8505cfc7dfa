/**
 * The video briefing panel: a player once the report has a video, a progress
 * screen while a video is being generated, and otherwise a prompt whose
 * button starts the generation.
 */
module VideoBriefing {
  import opened Wrappers
  import opened Types

  /** The progress messages, cycled through one per timer tick. */
  const ProgressSteps: seq<string> := [
    "Allocating compute resources for Veo 3.1...",
    "Injecting tactical context into neural video pipeline...",
    "Synthesizing cinematic 720p environments...",
    "Applying high-fidelity texture mapping...",
    "Rendering strategic motion vectors...",
    "Finalizing video briefing package..."
  ]

  /** Shown while the progress log is still empty. */
  const StartingMessage := "Initializing Tactical Engine..."

  /** The alert raised when generation, or handing the URL on, fails. */
  const FailurePrefix := "Video Generation Failed: "

  datatype Panel = Player(url: string) | Progress(message: string) | Prompt

  datatype BriefingState = BriefingState(generating: bool, log: string)

  /** The panel's initial state. */
  const Idle := BriefingState(false, "")

  /**
   * The panel shown. A report that already has a video always gets the
   * player, so no generation can be started for it.
   */
  function Render(videoUrl: Option<string>, st: BriefingState): (p: Panel)
    ensures p.Player? <==> IsSet(videoUrl)
    ensures p.Player? ==> p.url == videoUrl.value
    ensures p == Prompt <==> !IsSet(videoUrl) && !st.generating
    ensures p.Progress? ==> p.message != ""
  {
    if IsSet(videoUrl) then Player(videoUrl.value)
    else if st.generating then Progress(if st.log == "" then StartingMessage else st.log)
    else Prompt
  }

  /** The log after `ticks` timer ticks of one generation, starting from `prior`. */
  function LogAfterTicks(prior: string, ticks: nat): (log: string)
    ensures ticks == 0 ==> log == prior
    ensures ticks > 0 ==> log in ProgressSteps
  {
    if ticks == 0 then prior else ProgressSteps[(ticks - 1) % |ProgressSteps|]
  }

  /** Tick number `k` (counting from 0) shows message `k mod 6`, so the cycle repeats every six ticks. */
  lemma ProgressCycles(prior: string, k: nat)
    ensures LogAfterTicks(prior, k + 1) == ProgressSteps[k % 6]
    ensures LogAfterTicks(prior, k + 7) == LogAfterTicks(prior, k + 1)
  {
    assert (k + 6) % 6 == k % 6;
  }

  /** The outcome of one press of the generate button. */
  datatype Generation = Generation(
    state: BriefingState,
    delivered: seq<string>,
    alert: Option<string>)

  /**
   * One generation: `ticks` progress ticks pass while the video is produced,
   * then either the URL is handed to the report exactly once or an alert is
   * raised and nothing is handed on. `handOffError` is the message the
   * receiving callback throws, if it throws; that also ends in the alert.
   * Either way the panel stops generating.
   */
  function StartGeneration(st: BriefingState, ticks: nat, outcome: Result<string, string>, handOffError: Option<string>): (g: Generation)
    ensures !g.state.generating
    ensures g.state.log == LogAfterTicks(st.log, ticks)
    ensures outcome.Success? ==> g.delivered == [outcome.value]
    ensures outcome.Failure? ==> g.delivered == [] && g.alert == Some(FailurePrefix + outcome.error)
    ensures outcome.Success? ==>
      (g.alert.None? <==> handOffError.None?)
      && (handOffError.Some? ==> g.alert == Some(FailurePrefix + handOffError.value))
  {
    var after := BriefingState(false, LogAfterTicks(st.log, ticks));
    match outcome
    case Success(url) =>
      var alert := if handOffError.Some? then Some(FailurePrefix + handOffError.value) else None;
      Generation(after, [url], alert)
    case Failure(message) =>
      Generation(after, [], Some(FailurePrefix + message))
  }

  /** While generating, the panel shows the progress screen with the latest message. */
  lemma ProgressShownWhileGenerating(videoUrl: Option<string>, ticks: nat)
    requires !IsSet(videoUrl) && ticks > 0
    ensures Render(videoUrl, BriefingState(true, LogAfterTicks("", ticks)))
      == Progress(ProgressSteps[(ticks - 1) % 6])
  {
    assert ProgressSteps[(ticks - 1) % 6] != "";
  }
}
