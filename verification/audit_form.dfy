/**
 * The audit form: the empty-input guard, the cleaning of the typed domain,
 * the rolling progress log shown while the probe runs, and the handling of
 * the probe's success or failure. Timer ticks are inputs: the k-th tick
 * (from 0) is `Tick(logs, k)`.
 */
module AuditForm {
  import opened Wrappers
  import AuditService
  import Json

  const LoadingSteps: seq<string> := [
    "Establishing high-speed link...",
    "Injecting forensic crawlers...",
    "Parsing target metadata...",
    "Querying global sentiment indexes...",
    "Analyzing SWOT vectors...",
    "Building tactical battlecard...",
    "Synthesizing high-fidelity visuals..."]

  const InitialLogPrefix: string := "Initializing probe for: "
  const FailureFallback: string := "Audit failed. Ensure API_KEY is valid."
  /** How many earlier entries survive each tick (`slice(-8)`). */
  const KeptEntries: nat := 8

  /**
   * The length of the text `^(https?:\/\/)?(www\.)?` matches: at most one
   * lower-case `http://` or `https://`, then at most one `www.`.
   */
  function PrefixMatchLength(d: string): (k: nat)
    ensures k <= |d|
  {
    var scheme := SchemeLength(d);
    scheme + (if "www." <= d[scheme..] then 4 else 0)
  }

  /** The length of the optional `https?://` group's match. */
  function SchemeLength(d: string): (k: nat)
    ensures k <= |d|
  {
    if "https://" <= d then 8 else if "http://" <= d then 7 else 0
  }

  /** `s.split('/')[0]`: the text before the first slash. */
  function UpToSlash(s: string): (r: string)
    ensures r <= s
    ensures '/' !in r
    ensures |r| == |s| || s[|r|] == '/'
  {
    if |s| == 0 || s[0] == '/' then ""
    else [s[0]] + UpToSlash(s[1..])
  }

  /**
   * `cleanDomain`: the slash-free run of characters that follows the matched
   * prefix, with nothing lower-cased.
   */
  function CleanDomain(d: string): (r: string)
    ensures '/' !in r
    ensures var k := PrefixMatchLength(d);
      && k + |r| <= |d|
      && r == d[k..k + |r|]
      && (k + |r| == |d| || d[k + |r|] == '/')
  {
    var k := PrefixMatchLength(d);
    var r := UpToSlash(d[k..]);
    assert r == d[k..][..|r|];
    r
  }

  lemma {:induction false} UpToSlashOf(host: string, rest: string)
    requires '/' !in host
    requires rest == [] || rest[0] == '/'
    ensures UpToSlash(host + rest) == host
    decreases |host|
  {
    if |host| > 0 {
      assert host[0] != '/';
      assert (host + rest)[1..] == host[1..] + rest;
      UpToSlashOf(host[1..], rest);
      assert [host[0]] + host[1..] == host;
    }
  }

  lemma IndexConcat<T>(a: seq<T>, b: seq<T>, i: int)
    ensures 0 <= i < |a| ==> (a + b)[i] == a[i]
    ensures |a| <= i < |a| + |b| ==> (a + b)[i] == b[i - |a|]
  {
  }

  lemma DropConcat<T>(a: seq<T>, b: seq<T>)
    ensures (a + b)[|a|..] == b
  {
  }

  lemma DropDrop<T>(s: seq<T>, i: nat, j: nat)
    ensures i + j <= |s| ==> s[i + j..] == s[i..][j..]
  {
  }

  lemma PrefixIndex<T>(p: seq<T>, s: seq<T>, i: int)
    ensures p <= s && 0 <= i < |p| ==> s[i] == p[i]
  {
  }

  lemma PrefixOfConcat<T>(p: seq<T>, a: seq<T>, b: seq<T>)
    ensures p <= a + b && |a| <= |p| ==> a == p[..|a|]
    ensures p <= a + b && |p| <= |a| ==> p <= a
  {
    if p <= a + b && |a| <= |p| {
      assert (a + b)[..|a|] == a;
    }
    if p <= a + b && |p| <= |a| {
      assert (a + b)[..|p|] == a[..|p|];
    }
  }

  /**
   * A slash-free host followed by a path starts with `http://` or
   * `https://` only when the host is the bare scheme name and colon.
   */
  lemma NoSchemeInHost(p: string, host: string, rest: string)
    requires p == "http://" || p == "https://"
    requires '/' !in host
    requires rest == [] || rest[0] == '/'
    requires host != p[..|p| - 2]
    ensures !(p <= host + rest)
  {
    var c := |p| - 2;
    PrefixIndex(p, host + rest, |host|);
    IndexConcat(host, rest, |host|);
    PrefixIndex(p, host + rest, c);
    IndexConcat(host, rest, c);
    PrefixOfConcat(p, host, rest);
  }

  /** A slash-free host followed by a path starts with `www.` only when the host does. */
  lemma WwwOnlyInHost(host: string, rest: string)
    requires '/' !in host
    requires rest == [] || rest[0] == '/'
    requires !("www." <= host)
    ensures !("www." <= host + rest)
  {
    PrefixIndex("www.", host + rest, |host|);
    IndexConcat(host, rest, |host|);
    PrefixOfConcat("www.", host, rest);
  }

  /**
   * A URL made of an optional lower-case scheme, an optional `www.`, a host
   * and a path cleans to the host exactly, in its own case. (With neither
   * prefix, a host spelled `http:` or `https:` would itself read as a scheme.)
   */
  lemma CleanDomainOfUrl(scheme: string, www: string, host: string, rest: string)
    requires scheme == "" || scheme == "http://" || scheme == "https://"
    requires www == "" || www == "www."
    requires '/' !in host
    requires rest == [] || rest[0] == '/'
    requires www == "" ==> !("www." <= host)
    requires scheme == "" && www == "" ==> host != "http:" && host != "https:"
    ensures CleanDomain(scheme + www + host + rest) == host
  {
    PrefixMatchOfUrl(scheme, www, host, rest);
    UpToSlashOf(host, rest);
  }

  lemma PrefixMatchOfUrl(scheme: string, www: string, host: string, rest: string)
    requires scheme == "" || scheme == "http://" || scheme == "https://"
    requires www == "" || www == "www."
    requires '/' !in host
    requires rest == [] || rest[0] == '/'
    requires www == "" ==> !("www." <= host)
    requires scheme == "" && www == "" ==> host != "http:" && host != "https:"
    ensures var d := scheme + www + host + rest;
      PrefixMatchLength(d) == |scheme| + |www| && d[|scheme| + |www|..] == host + rest
  {
    var tail := www + host + rest;
    var d := scheme + tail;
    Assoc3(scheme, www, host, rest);
    SchemeOfUrl(scheme, www, host, rest);
    WwwOfUrl(www, host, rest);
    SchemeThenWww(d, |scheme|, tail);
    assert d[|scheme| + |www|..] == tail[|www|..] by {
      DropDrop(d, |scheme|, |www|);
    }
    Assoc2(www, host, rest);
    DropConcat(www, host + rest);
  }

  lemma Assoc3<T>(a: seq<T>, b: seq<T>, c: seq<T>, e: seq<T>)
    ensures a + b + c + e == a + (b + c + e)
  {
  }

  lemma Assoc2<T>(a: seq<T>, b: seq<T>, c: seq<T>)
    ensures a + b + c == a + (b + c)
  {
  }

  /** The `www.` group is matched against what follows the scheme. */
  lemma SchemeThenWww(d: string, k: nat, tail: string)
    requires SchemeLength(d) == k && k <= |d| && d[k..] == tail
    ensures PrefixMatchLength(d) == k + (if "www." <= tail then 4 else 0)
  {
  }

  lemma SchemeOfUrl(scheme: string, www: string, host: string, rest: string)
    requires scheme == "" || scheme == "http://" || scheme == "https://"
    requires www == "" || www == "www."
    requires '/' !in host
    requires rest == [] || rest[0] == '/'
    requires scheme == "" && www == "" ==> host != "http:" && host != "https:"
    ensures SchemeLength(scheme + (www + host + rest)) == |scheme|
  {
    var tail := www + host + rest;
    DropConcat(scheme, tail);
    if scheme == "https://" {
      assert "https://" <= scheme + tail;
    } else if scheme == "http://" {
      assert (scheme + tail)[4] == ':';
    } else if www == "www." {
      assert tail[0] == 'w';
      PrefixIndex("http://", tail, 0);
      PrefixIndex("https://", tail, 0);
    } else {
      assert tail == host + rest;
      NoSchemeInHost("http://", host, rest);
      NoSchemeInHost("https://", host, rest);
    }
  }

  lemma WwwOfUrl(www: string, host: string, rest: string)
    requires www == "" || www == "www."
    requires '/' !in host
    requires rest == [] || rest[0] == '/'
    requires www == "" ==> !("www." <= host)
    ensures ("www." <= www + host + rest) <==> www == "www."
  {
    if www == "" {
      assert www + host + rest == host + rest;
      WwwOnlyInHost(host, rest);
    }
  }

  /** Nothing is lower-cased: the host keeps its capital letters. */
  lemma CleanDomainKeepsCase()
    ensures CleanDomain("https://" + "www." + "Example.com" + "/pricing") == "Example.com"
  {
    CleanDomainOfUrl("https://", "www.", "Example.com", "/pricing");
  }

  /** Only a lower-case scheme is stripped; an upper-case one is cut at its slash. */
  lemma UpperCaseSchemeKept()
    ensures CleanDomain("HTTPS://x.com") == "HTTPS:"
  {
    var d := "HTTPS://x.com";
    assert d[0] == 'H';
    assert PrefixMatchLength(d) == 0;
    assert d == "HTTPS:" + "//x.com";
    UpToSlashOf("HTTPS:", "//x.com");
  }

  /** A bare scheme cleans to the empty string. */
  lemma BareSchemeCleansToEmpty()
    ensures CleanDomain("https://") == ""
  {
    assert "https://" <= "https://";
    assert SchemeLength("https://") == 8;
  }

  /** The form's state. */
  datatype FormState = FormState(domain: string, loading: bool, error: Option<string>, logs: seq<string>)

  /** What pressing submit does: nothing, or start a probe for the cleaned domain. */
  datatype Submission = Ignored | Started(cleaned: string, state: FormState)

  function Submit(st: FormState): (r: Submission)
    ensures r.Ignored? <==> st.domain == ""
    ensures r.Started? ==>
      && r.cleaned == CleanDomain(st.domain)
      && r.state.loading && r.state.error.None?
      && r.state.logs == [InitialLogPrefix + r.cleaned]
      && r.state.domain == st.domain
  {
    if st.domain == "" then Ignored
    else
      var cleaned := CleanDomain(st.domain);
      Started(cleaned, st.(loading := true, error := None, logs := [InitialLogPrefix + cleaned]))
  }

  /** The guard looks at the raw input, so a domain that cleans to `""` is still probed. */
  lemma EmptyCleanedStillSubmitted(st: FormState)
    requires st.domain == "https://"
    ensures Submit(st) == Started("", st.(loading := true, error := None, logs := [InitialLogPrefix]))
  {
    BareSchemeCleansToEmpty();
    assert InitialLogPrefix + "" == InitialLogPrefix;
  }

  /** The last `n` entries of `s` (all of them when there are fewer). */
  function LastN<T>(s: seq<T>, n: nat): (r: seq<T>)
    ensures |r| == if |s| < n then |s| else n
    ensures r == s[|s| - |r|..]
  {
    if |s| <= n then s else s[|s| - n..]
  }

  /** One timer tick: keep the last eight entries and append the step message. */
  function Tick(logs: seq<string>, step: nat): (r: seq<string>)
    ensures |r| <= KeptEntries + 1
    ensures |r| == (if |logs| < KeptEntries then |logs| else KeptEntries) + 1
    ensures r[|r| - 1] == LoadingSteps[step % |LoadingSteps|]
    ensures r[..|r| - 1] == logs[|logs| - (|r| - 1)..]
  {
    LastN(logs, KeptEntries) + [LoadingSteps[step % |LoadingSteps|]]
  }

  /** The log after the first `n` ticks. */
  function LogsAfter(cleaned: string, n: nat): seq<string> {
    if n == 0 then [InitialLogPrefix + cleaned]
    else Tick(LogsAfter(cleaned, n - 1), n - 1)
  }

  /** Everything ever logged in the first `n` ticks, oldest first. */
  function History(cleaned: string, n: nat): (h: seq<string>)
    ensures |h| == n + 1
  {
    if n == 0 then [InitialLogPrefix + cleaned]
    else History(cleaned, n - 1) + [LoadingSteps[(n - 1) % |LoadingSteps|]]
  }

  /** The history is the initial line, then the k-th tick's step message at position k + 1. */
  lemma {:induction false} HistoryEntries(cleaned: string, n: nat)
    ensures History(cleaned, n)[0] == InitialLogPrefix + cleaned
    ensures forall k :: 0 <= k < n ==> History(cleaned, n)[k + 1] == LoadingSteps[k % |LoadingSteps|]
  {
    if n > 0 {
      HistoryEntries(cleaned, n - 1);
      var h, prior := History(cleaned, n), History(cleaned, n - 1);
      assert h == prior + [LoadingSteps[(n - 1) % |LoadingSteps|]];
      forall k | 0 <= k < n
        ensures h[k + 1] == LoadingSteps[k % |LoadingSteps|]
      {
        if k < n - 1 {
          assert h[k + 1] == prior[k + 1];
        }
      }
    }
  }

  lemma LastNOfLastN<T>(s: seq<T>)
    ensures LastN(LastN(s, KeptEntries + 1), KeptEntries) == LastN(s, KeptEntries)
  {
  }

  lemma LastNAppend<T>(s: seq<T>, x: T)
    ensures LastN(s + [x], KeptEntries + 1) == LastN(s, KeptEntries) + [x]
  {
    var l := LastN(s + [x], KeptEntries + 1);
    assert l[..|l| - 1] == LastN(s, KeptEntries);
  }

  lemma LogStep(cleaned: string, n: nat)
    requires n > 0
    ensures var x := LoadingSteps[(n - 1) % |LoadingSteps|];
      && History(cleaned, n) == History(cleaned, n - 1) + [x]
      && LogsAfter(cleaned, n) == LastN(LogsAfter(cleaned, n - 1), KeptEntries) + [x]
  {
    var x := LoadingSteps[(n - 1) % |LoadingSteps|];
    assert LogsAfter(cleaned, n) == Tick(LogsAfter(cleaned, n - 1), n - 1);
    assert Tick(LogsAfter(cleaned, n - 1), n - 1) == LastN(LogsAfter(cleaned, n - 1), KeptEntries) + [x];
  }

  /**
   * The rolling log is exactly the last nine entries of the full history:
   * the initial line followed by `LoadingSteps[k mod 7]` for the k-th tick.
   * Older entries keep their order and the log never exceeds nine lines.
   */
  lemma {:induction false} LogWindow(cleaned: string, n: nat)
    ensures LogsAfter(cleaned, n) == LastN(History(cleaned, n), KeptEntries + 1)
    ensures |LogsAfter(cleaned, n)| == (if n < KeptEntries then n + 1 else KeptEntries + 1)
  {
    if n > 0 {
      LogWindow(cleaned, n - 1);
      WindowStep(cleaned, n);
    }
  }

  /** One tick moves the window over the history by one entry. */
  lemma WindowStep(cleaned: string, n: nat)
    requires n > 0
    requires LogsAfter(cleaned, n - 1) == LastN(History(cleaned, n - 1), KeptEntries + 1)
    ensures LogsAfter(cleaned, n) == LastN(History(cleaned, n), KeptEntries + 1)
  {
    var h := History(cleaned, n - 1);
    var x := LoadingSteps[(n - 1) % |LoadingSteps|];
    LogStep(cleaned, n);
    LastNOfLastN(h);
    LastNAppend(h, x);
  }

  /** The probe's end: the form's new state and the record handed to `onComplete`, if any. */
  datatype Settled<T> = Settled(state: FormState, completed: Option<T>)

  /**
   * Settle the probe. A failure carries the thrown error's message, `None`
   * when it has none.
   */
  function Settle<T>(st: FormState, outcome: Result<T, Option<string>>): (r: Settled<T>)
    ensures !r.state.loading
    ensures r.state.logs == st.logs && r.state.domain == st.domain
    ensures r.completed.Some? <==> outcome.Success?
    ensures outcome.Success? ==> r.completed == Some(outcome.value) && r.state.error == st.error
    ensures outcome.Failure? ==>
      && r.state.error.Some?
      && (outcome.error.Some? && outcome.error.value != "" ==> r.state.error == outcome.error)
      && (outcome.error.None? || outcome.error.value == "" ==> r.state.error == Some(FailureFallback))
  {
    match outcome
    case Success(v) => Settled(st.(loading := false), Some(v))
    case Failure(message) =>
      var shown := if message.Some? && message.value != "" then message.value else FailureFallback;
      Settled(st.(loading := false, error := Some(shown)), None)
  }

  /**
   * A failed probe never shows the form's own fallback: its message always
   * starts with the probe prefix, and nothing is handed on.
   */
  lemma ProbeFailureShown(
    st: FormState, domain: string, id: string, timestamp: string,
    outcome: Result<AuditService.Response, string>, parse: string -> Option<Json.Json>)
    requires AuditService.PerformAudit(domain, id, timestamp, outcome, parse).Failure?
    ensures var message := AuditService.PerformAudit(domain, id, timestamp, outcome, parse).error;
      var r := Settle<AuditService.Report>(st, Failure(Some(message)));
      && r.completed.None? && !r.state.loading
      && r.state.error == Some(message)
      && AuditService.ProbePrefix <= message
  {
    var message := AuditService.PerformAudit(domain, id, timestamp, outcome, parse).error;
    assert |message| >= |AuditService.ProbePrefix| > 0;
  }
}
