/** The VCEK cache with its single in-flight slot (`QuoteBinding` in kettle/src/quote.ts). */
module VcekCache {
  import opened Bytes
  import Hex
  import Sev

  // ---- the cache key ----

  function CacheKey(report: seq<byte>): string {
    Hex.Encode(Hex.LOWER, Slice(report, 416, 480)) + "-" + Hex.Encode(Hex.LOWER, Slice(report, 384, 392))
  }

  lemma {:induction false} SplitAtDash(a: string, b: string, c: string, d: string)
    requires '-' !in a && '-' !in c && a + "-" + b == c + "-" + d
    ensures a == c && b == d
  {
    var s, t := a + "-" + b, c + "-" + d;
    assert s[|a|] == '-' && t[|c|] == '-';
    assert forall i :: 0 <= i < |a| ==> s[i] == a[i] && a[i] in a;
    assert forall i :: 0 <= i < |c| ==> t[i] == c[i] && c[i] in c;
    assert |a| == |c|;
    assert a == s[..|a|] && c == t[..|c|];
    assert b == s[|a| + 1..] && d == t[|c| + 1..];
  }

  /** The key tells reports apart exactly by the chip id and the TCB bytes. */
  lemma {:induction false} CacheKeyInjective(r1: seq<byte>, r2: seq<byte>)
    ensures CacheKey(r1) == CacheKey(r2)
       <==> Slice(r1, 416, 480) == Slice(r2, 416, 480) && Slice(r1, 384, 392) == Slice(r2, 384, 392)
  {
    hide Hex.Encode, Slice;
    if CacheKey(r1) == CacheKey(r2) {
      var a, b := Hex.Encode(Hex.LOWER, Slice(r1, 416, 480)), Hex.Encode(Hex.LOWER, Slice(r1, 384, 392));
      var c, d := Hex.Encode(Hex.LOWER, Slice(r2, 416, 480)), Hex.Encode(Hex.LOWER, Slice(r2, 384, 392));
      SplitAtDash(a, b, c, d);
      LowerIsAlphabet();
      Hex.EncodeInjective(Hex.LOWER, Slice(r1, 416, 480), Slice(r2, 416, 480));
      Hex.EncodeInjective(Hex.LOWER, Slice(r1, 384, 392), Slice(r2, 384, 392));
    }
  }

  lemma {:induction false} LowerIsAlphabet()
    ensures Hex.IsAlphabet(Hex.LOWER)
  {
    forall i | 0 <= i < 16
      ensures Hex.LOWER[i] == (if i < 10 then '0' + i as char else 'a' + (i - 10) as char)
    {
    }
  }

  /** For a report that parses, these are the parsed `chip_id` and `reported_tcb`. */
  lemma {:induction false} CacheKeyIsParsed(report: seq<byte>)
    requires Sev.ParseSevSnpReport(report).Some?
    ensures var body := Sev.ParseSevSnpReport(report).value.body;
            && body[Sev.CHIP_ID].B? && body[Sev.REPORTED_TCB].B?
            && CacheKey(report) == Hex.Encode(Hex.LOWER, body[Sev.CHIP_ID].b) + "-"
                                 + Hex.Encode(Hex.LOWER, body[Sev.REPORTED_TCB].b)
  {
    Sev.ChipFields(report);
  }

  // ---- the fields ----

  datatype Certs = Certs(vcek: string, ask: Option<string>, ark: Option<string>)

  /** The three fields; a promise is known by the number of its fetch. */
  datatype Fields = Fields(cache: map<string, Certs>, promise: Option<nat>, key: Option<string>)

  /** How a call goes on after its first synchronous part. */
  datatype Reply = Returns(certs: Certs) | Awaits(fetch: nat) | Starts(fetch: nat)

  function CallReply(f: Fields, key: string, newId: nat): Reply {
    if key in f.cache then Returns(f.cache[key])
    else if f.promise.Some? && f.key == Some(key) then Awaits(f.promise.value)
    else Starts(newId)
  }

  function AfterCall(f: Fields, key: string, newId: nat): Fields {
    if CallReply(f, key, newId).Starts? then f.(promise := Some(newId), key := Some(key)) else f
  }

  function Cleared(f: Fields): Fields {
    f.(promise := None, key := None)
  }

  /** One run of the fetch command. */
  datatype Attempt = Fetched(certs: Certs) | Retryable | Fatal

  const MAX_RETRIES := 5

  /** The certificates of the first attempt that is not retryable, if it comes early enough and succeeds. */
  function FetchResult(attempts: nat -> Attempt, i: nat): Option<Certs>
    decreases MAX_RETRIES - i
  {
    if i >= MAX_RETRIES then None
    else
      match attempts(i)
      case Fetched(certs) => Some(certs)
      case Retryable => FetchResult(attempts, i + 1)
      case Fatal => None
  }

  class QuoteBinding {
    var vcekCache: map<string, Certs>
    var vcekFetchPromise: Option<nat>
    var vcekFetchKey: Option<string>

    ghost function View(): Fields
      reads this
    {
      Fields(vcekCache, vcekFetchPromise, vcekFetchKey)
    }

    /** `loaded` is what the cache directory holds. */
    constructor (loaded: map<string, Certs>)
      ensures View() == Fields(loaded, None, None)
    {
      vcekCache, vcekFetchPromise, vcekFetchKey := loaded, None, None;
    }

    /** `fetchVcekWithRetry` up to its first `await`; `newId` names the promise of a new fetch. */
    method FetchVcekWithRetry(attestation: seq<byte>, newId: nat) returns (reply: Reply)
      modifies this
      ensures reply == CallReply(old(View()), CacheKey(attestation), newId)
      ensures View() == AfterCall(old(View()), CacheKey(attestation), newId)
      ensures vcekCache == old(vcekCache)
      ensures reply.Returns? <==> CacheKey(attestation) in vcekCache
      ensures !reply.Returns? ==> vcekFetchKey == Some(CacheKey(attestation)) && vcekFetchPromise == Some(reply.fetch)
    {
      var cacheKey := CacheKey(attestation);
      if cacheKey in vcekCache {
        return Returns(vcekCache[cacheKey]);
      }
      if vcekFetchPromise.Some? && vcekFetchKey == Some(cacheKey) {
        return Awaits(vcekFetchPromise.value);
      }
      vcekFetchKey := Some(cacheKey);
      vcekFetchPromise := Some(newId);
      return Starts(newId);
    }

    /** The retry loop: at most five attempts, stopping at the first success or fatal error. */
    method DoVcekFetchWithRetry(cacheKey: string, attempts: nat -> Attempt) returns (r: Option<Certs>)
      modifies this
      ensures r == FetchResult(attempts, 0)
      ensures View() == if r.Some? then old(View()).(cache := old(vcekCache)[cacheKey := r.value]) else old(View())
    {
      for attempt := 0 to MAX_RETRIES
        invariant View() == old(View())
        invariant FetchResult(attempts, 0) == FetchResult(attempts, attempt)
      {
        match attempts(attempt)
        case Fetched(certs) =>
          vcekCache := vcekCache[cacheKey := certs];
          return Some(certs);
        case Retryable =>
        case Fatal =>
          break;
      }
      return None;
    }
  }

  /** Success means exactly: one of the first five attempts succeeded after nothing but retryable errors. */
  lemma {:induction false} FetchResultIff(attempts: nat -> Attempt, i: nat, certs: Certs)
    ensures FetchResult(attempts, i) == Some(certs)
       <==> exists k: nat :: i <= k < 5 && attempts(k) == Fetched(certs)
                          && forall j: nat :: i <= j < k ==> attempts(j) == Retryable
    decreases MAX_RETRIES - i
  {
    if i < MAX_RETRIES && attempts(i) == Retryable {
      FetchResultIff(attempts, i + 1, certs);
    }
  }

  // ---- every interleaving of any number of callers ----

  datatype Outcome = Running | Succeeded(certs: Certs) | Failed

  /** `pending`: the call that started the fetch has not run its `finally` block. */
  datatype Fetch = Fetch(key: string, outcome: Outcome, pending: bool)

  datatype Waiter = Waiter(key: string, fetch: nat)

  datatype Returned = Returned(key: string, certs: Certs)

  datatype State = State(fields: Fields, fetches: seq<Fetch>, waiters: seq<Waiter>, returned: seq<Returned>)

  datatype Step =
    | Call(key: string)
    | Finish(fetch: nat, result: Option<Certs>)
    | Finally(fetch: nat)
    | Resume(waiter: nat)

  predicate Enabled(s: State, step: Step) {
    match step
    case Call(_) => true
    case Finish(f, _) => f < |s.fetches| && s.fetches[f].outcome.Running?
    case Finally(f) => f < |s.fetches| && !s.fetches[f].outcome.Running? && s.fetches[f].pending
    case Resume(w) =>
      && w < |s.waiters| && s.waiters[w].fetch < |s.fetches|
      && !s.fetches[s.waiters[w].fetch].outcome.Running?
  }

  function Next(s: State, step: Step): State
    requires Enabled(s, step)
  {
    match step
    case Call(key) =>
      var newId := |s.fetches|;
      var s' := s.(fields := AfterCall(s.fields, key, newId));
      (match CallReply(s.fields, key, newId)
       case Returns(certs) => s'.(returned := s.returned + [Returned(key, certs)])
       case Awaits(f) => s'.(waiters := s.waiters + [Waiter(key, f)])
       case Starts(f) =>
         s'.(fetches := s.fetches + [Fetch(key, Running, true)], waiters := s.waiters + [Waiter(key, f)]))
    case Finish(f, result) =>
      var fetch := s.fetches[f];
      if result.None? then s.(fetches := s.fetches[f := fetch.(outcome := Failed)])
      else s.(fetches := s.fetches[f := fetch.(outcome := Succeeded(result.value))],
              fields := s.fields.(cache := s.fields.cache[fetch.key := result.value]))
    case Finally(f) =>
      s.(fields := Cleared(s.fields), fetches := s.fetches[f := s.fetches[f].(pending := false)])
    case Resume(w) =>
      var fetch := s.fetches[s.waiters[w].fetch];
      if fetch.outcome.Failed? then s
      else s.(returned := s.returned + [Returned(s.waiters[w].key, fetch.outcome.certs)])
  }

  /** Which certificates belong to which key: what the fetch command and the directory are trusted for. */
  type Issued = (string, Certs) -> bool

  predicate StepTrusted(issued: Issued, s: State, step: Step)
    requires Enabled(s, step)
  {
    step.Finish? && step.result.Some? ==> issued(s.fetches[step.fetch].key, step.result.value)
  }

  predicate ValidRun(issued: Issued, s: State, steps: seq<Step>)
    decreases |steps|
  {
    steps != [] ==> && Enabled(s, steps[0]) && StepTrusted(issued, s, steps[0])
                    && ValidRun(issued, Next(s, steps[0]), steps[1..])
  }

  function Run(issued: Issued, s: State, steps: seq<Step>): State
    requires ValidRun(issued, s, steps)
    decreases |steps|
  {
    if steps == [] then s else Run(issued, Next(s, steps[0]), steps[1..])
  }

  function Initial(loaded: map<string, Certs>): State {
    State(Fields(loaded, None, None), [], [], [])
  }

  ghost predicate LoadedFor(issued: Issued, cache: map<string, Certs>) {
    forall k :: k in cache ==> issued(k, cache[k])
  }

  /** Promises, waiters and results all stay with their own key. */
  ghost predicate Keyed(issued: Issued, s: State) {
    && LoadedFor(issued, s.fields.cache)
    && (s.fields.promise.Some? ==>
          && s.fields.key.Some? && s.fields.promise.value < |s.fetches|
          && s.fetches[s.fields.promise.value].key == s.fields.key.value)
    && (forall w :: 0 <= w < |s.waiters| ==>
          s.waiters[w].fetch < |s.fetches| && s.fetches[s.waiters[w].fetch].key == s.waiters[w].key)
    && (forall f :: 0 <= f < |s.fetches| && s.fetches[f].outcome.Succeeded?
          ==> issued(s.fetches[f].key, s.fetches[f].outcome.certs))
    && (forall r :: 0 <= r < |s.returned| ==> issued(s.returned[r].key, s.returned[r].certs))
  }

  lemma {:induction false} KeyedStep(issued: Issued, s: State, step: Step)
    requires Keyed(issued, s) && Enabled(s, step) && StepTrusted(issued, s, step)
    ensures Keyed(issued, Next(s, step))
  {
  }

  lemma {:induction false} KeyedRun(issued: Issued, s: State, steps: seq<Step>)
    requires Keyed(issued, s) && ValidRun(issued, s, steps)
    ensures Keyed(issued, Run(issued, s, steps))
    decreases |steps|
  {
    if steps != [] {
      KeyedStep(issued, s, steps[0]);
      KeyedRun(issued, Next(s, steps[0]), steps[1..]);
    }
  }

  /** Under every interleaving, a caller that succeeds receives certificates that belong to its own key. */
  lemma {:induction false} CallersGetTheirOwn(issued: Issued, loaded: map<string, Certs>, steps: seq<Step>)
    requires LoadedFor(issued, loaded) && ValidRun(issued, Initial(loaded), steps)
    ensures var s := Run(issued, Initial(loaded), steps);
            forall r :: 0 <= r < |s.returned| ==> issued(s.returned[r].key, s.returned[r].certs)
  {
    KeyedRun(issued, Initial(loaded), steps);
  }

  predicate OneKey(steps: seq<Step>, key: string) {
    forall i :: 0 <= i < |steps| && steps[i].Call? ==> steps[i].key == key
  }

  /** The only fetch that is not wound up is the one in the slot. */
  predicate SlotHoldsPending(s: State, key: string) {
    && (s.fields.promise.Some? ==> s.fields.key == Some(key))
    && forall f :: 0 <= f < |s.fetches| && (s.fetches[f].outcome.Running? || s.fetches[f].pending)
         ==> s.fields.promise == Some(f) && s.fetches[f].pending
  }

  lemma {:induction false} SlotStep(s: State, step: Step, key: string)
    requires SlotHoldsPending(s, key) && Enabled(s, step) && (step.Call? ==> step.key == key)
    ensures SlotHoldsPending(Next(s, step), key)
  {
  }

  lemma {:induction false} SlotRun(issued: Issued, s: State, steps: seq<Step>, key: string)
    requires SlotHoldsPending(s, key) && ValidRun(issued, s, steps) && OneKey(steps, key)
    ensures SlotHoldsPending(Run(issued, s, steps), key)
    decreases |steps|
  {
    if steps != [] {
      SlotStep(s, steps[0], key);
      assert forall i :: 0 <= i < |steps[1..]| ==> steps[1..][i] == steps[i + 1];
      SlotRun(issued, Next(s, steps[0]), steps[1..], key);
    }
  }

  /** When all callers share one key, at most one fetch is running. */
  lemma {:induction false} OneKeyOneFetch(issued: Issued, loaded: map<string, Certs>, steps: seq<Step>, key: string,
                                          f: nat, g: nat)
    requires ValidRun(issued, Initial(loaded), steps) && OneKey(steps, key)
    requires var s := Run(issued, Initial(loaded), steps);
             f < |s.fetches| && g < |s.fetches| && s.fetches[f].outcome.Running? && s.fetches[g].outcome.Running?
    ensures f == g
  {
    SlotRun(issued, Initial(loaded), steps, key);
  }

  /**
   With two keys it does not hold: the slot has room for one promise and any `finally` empties it.
   For every pair of keys there is a run after which two fetches for the same key are running.
   */
  lemma {:induction false} TwoKeysCanOverlap(issued: Issued, a: string, b: string, certs: Certs)
    requires a != b && issued(a, certs)
    ensures var steps := [Call(a), Call(b), Finish(0, Some(certs)), Finally(0), Call(b)];
            && ValidRun(issued, Initial(map[]), steps)
            && var s := Run(issued, Initial(map[]), steps);
               |s.fetches| == 3 && s.fetches[1] == s.fetches[2] == Fetch(b, Running, true)
  {
    var s0 := Initial(map[]);
    var s1 := Next(s0, Call(a));
    var s2 := Next(s1, Call(b));
    var s3 := Next(s2, Finish(0, Some(certs)));
    var s4 := Next(s3, Finally(0));
    var s5 := Next(s4, Call(b));
    RunCons(issued, s4, Call(b), []);
    RunCons(issued, s3, Finally(0), [Call(b)]);
    RunCons(issued, s2, Finish(0, Some(certs)), [Finally(0), Call(b)]);
    RunCons(issued, s1, Call(b), [Finish(0, Some(certs)), Finally(0), Call(b)]);
    RunCons(issued, s0, Call(a), [Call(b), Finish(0, Some(certs)), Finally(0), Call(b)]);
    hide ValidRun, Run;
    Displays(Call(a), Call(b), Finish(0, Some(certs)), Finally(0), Call(b));
  }

  lemma {:induction false} Displays(a: Step, b: Step, c: Step, d: Step, e: Step)
    ensures [d] + [e] == [d, e] && [c] + [d, e] == [c, d, e]
    ensures [b] + [c, d, e] == [b, c, d, e] && [a] + [b, c, d, e] == [a, b, c, d, e] && [e] + [] == [e]
  {
  }

  lemma {:induction false} RunCons(issued: Issued, s: State, step: Step, rest: seq<Step>)
    requires Enabled(s, step) && StepTrusted(issued, s, step) && ValidRun(issued, Next(s, step), rest)
    ensures ValidRun(issued, s, [step] + rest)
    ensures Run(issued, s, [step] + rest) == Run(issued, Next(s, step), rest)
  {
    assert ([step] + rest)[1..] == rest;
  }

  predicate Fetching(s: State, key: string, f: nat) {
    f < |s.fetches| && s.fetches[f].key == key && s.fetches[f].outcome.Running?
  }

  /** Two fetches for the key are running. */
  ghost predicate Overlap(s: State, key: string) {
    exists f, g :: 0 <= f < g < |s.fetches| && Fetching(s, key, f) && Fetching(s, key, g)
  }

  /** A call comes while a fetch for its key is running that neither the cache nor the slot knows of. */
  predicate Misses(s: State, step: Step, key: string) {
    && step == Call(key) && key !in s.fields.cache && !(s.fields.promise.Some? && s.fields.key == Some(key))
    && exists f :: 0 <= f < |s.fetches| && Fetching(s, key, f)
  }

  lemma {:induction false} OverlapStep(s: State, step: Step, key: string)
    requires Enabled(s, step) && !Overlap(s, key)
    ensures Overlap(Next(s, step), key) <==> Misses(s, step, key)
  {
    var t := Next(s, step);
    assert forall f :: 0 <= f < |s.fetches| && Fetching(t, key, f) ==> Fetching(s, key, f);
    if Misses(s, step, key) {
      var f :| 0 <= f < |s.fetches| && Fetching(s, key, f);
      assert Fetching(t, key, f) && Fetching(t, key, |s.fetches|);
    }
  }

  /** At some point of the run two fetches for the key are running. */
  ghost predicate Overlaps(issued: Issued, s: State, steps: seq<Step>, key: string)
    requires ValidRun(issued, s, steps)
    decreases |steps|
  {
    Overlap(s, key) || (steps != [] && Overlaps(issued, Next(s, steps[0]), steps[1..], key))
  }

  predicate MissesIn(issued: Issued, s: State, steps: seq<Step>, key: string)
    requires ValidRun(issued, s, steps)
    decreases |steps|
  {
    steps != [] && (Misses(s, steps[0], key) || MissesIn(issued, Next(s, steps[0]), steps[1..], key))
  }

  lemma {:induction false} OverlapRun(issued: Issued, s: State, steps: seq<Step>, key: string)
    requires ValidRun(issued, s, steps) && !Overlap(s, key)
    ensures Overlaps(issued, s, steps, key) <==> MissesIn(issued, s, steps, key)
    decreases |steps|
  {
    if steps != [] {
      hide Overlap, Misses, Next;
      var t := Next(s, steps[0]);
      OverlapStep(s, steps[0], key);
      if !Overlap(t, key) {
        OverlapRun(issued, t, steps[1..], key);
      }
    }
  }

  /**
   Over every run of any number of callers and keys: two fetches for a key are running at some point,
   if and only if some call for it comes while a fetch for it is running, is not answered from the
   cache, and does not find it in the slot.
   */
  lemma {:induction false} OverlapIff(issued: Issued, loaded: map<string, Certs>, steps: seq<Step>, key: string)
    requires ValidRun(issued, Initial(loaded), steps)
    ensures Overlaps(issued, Initial(loaded), steps, key) <==> MissesIn(issued, Initial(loaded), steps, key)
  {
    OverlapRun(issued, Initial(loaded), steps, key);
  }
}
