/**
 * The network-quality provider: the classification of the connection
 * (offline, slow or fast), the online/offline/change handlers that keep it
 * current, the two flags derived from it and the body class chosen from it.
 * The browser's readings are parameters of each handler.
 */
module NetworkProvider {
  import opened Types

  /** What the Connection API reports; either field may be undefined (None). */
  datatype ConnectionInfo = ConnectionInfo(effectiveType: Option<string>, downlink: Option<real>)

  /** The outcome of the latency probe on `/favicon.ico`: a failure, or the elapsed milliseconds. */
  datatype Probe = ProbeFailed | ProbeLatency(ms: int)

  /** What the handlers read when they run: `navigator.onLine`, the connection's fields and the probe. */
  datatype Reading = Reading(onLine: bool, info: ConnectionInfo, probe: Probe)

  /** `x < bound` where an undefined `x` compares false. */
  predicate Below(x: Option<real>, bound: real) {
    x.Some? && x.value < bound
  }

  predicate SlowType(t: Option<string>) {
    t == Some("slow-2g") || t == Some("2g") || t == Some("3g")
  }

  /**
   * `updateConnectionQuality`: offline when the browser says so; with the
   * Connection API, slow on a 2g/3g type or a downlink under 2 Mb/s; without
   * it, slow when the probe fails or takes more than 2000 ms.
   */
  function Classify(hasConnection: bool, r: Reading): (q: Quality)
    ensures q == Offline <==> !r.onLine
    ensures r.onLine && hasConnection ==>
      (q == Slow <==> SlowType(r.info.effectiveType) || Below(r.info.downlink, 2.0))
    ensures r.onLine && !hasConnection ==>
      (q == Slow <==> r.probe.ProbeFailed? || r.probe.ms > 2000)
  {
    if !r.onLine then Offline
    else if hasConnection then
      if r.info.effectiveType == Some("slow-2g") || r.info.effectiveType == Some("2g") || Below(r.info.downlink, 0.5) then Slow
      else if r.info.effectiveType == Some("3g") || Below(r.info.downlink, 2.0) then Slow
      else Fast
    else
      match r.probe
      case ProbeFailed => Slow
      case ProbeLatency(ms) => if ms > 2000 then Slow else Fast
  }

  /** Offline wins over whatever the Connection API or the probe says. */
  lemma OfflineWins(hasConnection: bool, r: Reading, s: Reading)
    requires !r.onLine && !s.onLine
    ensures Classify(hasConnection, r) == Classify(!hasConnection, s) == Offline
  {
  }

  /** A 4g connection is still slow when its downlink is 1.5 Mb/s. */
  lemma LowDownlinkIsSlow(r: Reading)
    requires r.onLine && r.info == ConnectionInfo(Some("4g"), Some(1.5))
    ensures Classify(true, r) == Slow
  {
  }

  /** `shouldUseAnimations`. */
  function ShouldUseAnimations(q: Quality): bool {
    q == Fast
  }

  /** `shouldUseLowBandwidthMode`. */
  function ShouldUseLowBandwidthMode(q: Quality): bool {
    q == Slow || q == Offline
  }

  /** The two flags are complements: exactly one holds for every quality. */
  lemma FlagsComplementary(q: Quality)
    ensures ShouldUseAnimations(q) != ShouldUseLowBandwidthMode(q)
    ensures ShouldUseAnimations(q) <==> q == Fast
  {
  }

  const LowBandwidthClass := "congo-low-bandwidth"
  const HighBandwidthClass := "congo-high-bandwidth"

  /** The class the body gets for a quality. */
  function BodyClass(q: Quality): (c: string)
    ensures c == LowBandwidthClass <==> ShouldUseLowBandwidthMode(q)
    ensures c == HighBandwidthClass <==> ShouldUseAnimations(q)
  {
    if q == Slow || q == Offline then LowBandwidthClass else HighBandwidthClass
  }

  /** The body's class list after the effect: both classes removed, then the one for `q` added. */
  function Restyled(classes: set<string>, q: Quality): (r: set<string>)
    ensures BodyClass(q) in r
    ensures LowBandwidthClass in r <==> ShouldUseLowBandwidthMode(q)
    ensures HighBandwidthClass in r <==> ShouldUseAnimations(q)
    ensures forall c :: c != LowBandwidthClass && c != HighBandwidthClass ==> (c in r <==> c in classes)
  {
    classes - {LowBandwidthClass, HighBandwidthClass} + {BodyClass(q)}
  }

  /** The body carries exactly one of the two classes. */
  predicate OneBandwidthClass(classes: set<string>) {
    (LowBandwidthClass in classes) != (HighBandwidthClass in classes)
  }

  /** Restyling always leaves exactly one bandwidth class, and restyling twice is restyling once. */
  lemma RestyledOneClass(classes: set<string>, q: Quality, p: Quality)
    ensures OneBandwidthClass(Restyled(classes, q))
    ensures Restyled(Restyled(classes, p), q) == Restyled(classes, q)
  {
  }

  /** The provider's state and the body's class list it styles. */
  class Provider {
    var quality: Quality
    var isOnline: bool
    /** Whether a Connection object existed when the provider mounted. */
    var hasConnection: bool
    var bodyClasses: set<string>

    predicate Valid()
      reads this
    {
      bodyClasses == Restyled(bodyClasses, quality)
    }

    /**
     * Mounting: the initial state ('fast', online), then the first effect,
     * which records `navigator.onLine` and classifies, and the body effect.
     */
    constructor (connection: bool, r: Reading, body: set<string>)
      ensures hasConnection == connection && isOnline == r.onLine
      ensures quality == Classify(connection, r)
      ensures bodyClasses == Restyled(body, quality)
      ensures Valid()
    {
      hasConnection := connection;
      isOnline := r.onLine;
      var q := Classify(connection, r);
      quality := q;
      bodyClasses := Restyled(body, q);
    }

    /** The `online` event: online, then reclassified from the current reading. */
    method OnOnline(r: Reading)
      requires Valid()
      modifies this
      ensures isOnline && quality == Classify(hasConnection, r)
      ensures hasConnection == old(hasConnection)
      ensures bodyClasses == Restyled(old(bodyClasses), quality)
      ensures Valid()
    {
      isOnline := true;
      quality := Classify(hasConnection, r);
      bodyClasses := Restyled(bodyClasses, quality);
    }

    /** The `offline` event: offline, whatever the connection says. */
    method OnOffline()
      requires Valid()
      modifies this
      ensures !isOnline && quality == Offline
      ensures hasConnection == old(hasConnection)
      ensures bodyClasses == Restyled(old(bodyClasses), Offline)
      ensures LowBandwidthClass in bodyClasses && HighBandwidthClass !in bodyClasses
      ensures Valid()
    {
      isOnline := false;
      quality := Offline;
      bodyClasses := Restyled(bodyClasses, quality);
    }

    /** The connection's `change` event, heard only when a Connection object existed at mount. */
    method OnConnectionChange(r: Reading)
      requires Valid()
      modifies this
      ensures quality == (if hasConnection then Classify(true, r) else old(quality))
      ensures isOnline == old(isOnline) && hasConnection == old(hasConnection)
      ensures bodyClasses == Restyled(old(bodyClasses), quality)
      ensures Valid()
    {
      if hasConnection {
        quality := Classify(true, r);
        bodyClasses := Restyled(bodyClasses, quality);
      }
    }
  }
}
