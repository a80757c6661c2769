/** What the annotations of ingresses and classes mean, told without the code that reads them. */
module Configuration {
  import opened Options
  import opened Kube
  import opened Tree

  // ---- one annotation ----

  /** Source `k` is the first that carries the annotation, with this value; past the end the default counts. */
  ghost predicate DecidesAt<T>(default: T, sources: seq<Annotation<T>>, v: T, k: nat) {
    && k <= |sources| && (forall i | 0 <= i < k :: sources[i].Absent?)
    && if k == |sources| then v == default else sources[k] == Given(v)
  }

  ghost predicate Decided<T>(default: T, sources: seq<Annotation<T>>, v: T) {
    exists k: nat :: DecidesAt(default, sources, v, k)
  }

  /** The first source that carries the annotation decides; without any, the default does. */
  lemma {:induction false} AnnotationIsDecided<T>(default: T, sources: seq<Annotation<T>>, v: T)
    ensures GetAnnotation(default, sources) == Ok(v) <==> Decided(default, sources, v)
  {
    if sources == [] {
      assert v == default ==> DecidesAt(default, sources, v, 0);
    } else if !sources[0].Absent? {
      assert sources[0] == Given(v) ==> DecidesAt(default, sources, v, 0);
    } else {
      AnnotationIsDecided(default, sources[1..], v);
      if Decided(default, sources, v) {
        var k: nat :| DecidesAt(default, sources, v, k);
        assert DecidesAt(default, sources[1..], v, k - 1);
      }
      if Decided(default, sources[1..], v) {
        var k: nat :| DecidesAt(default, sources[1..], v, k);
        forall i | 0 <= i < k + 1 ensures sources[i].Absent? { assert i > 0 ==> sources[1..][i - 1] == sources[i]; }
        assert DecidesAt(default, sources, v, k + 1);
      }
    }
  }

  /** The first source that carries the annotation has a value that cannot be parsed. */
  ghost predicate Undecidable<T>(sources: seq<Annotation<T>>) {
    exists k :: 0 <= k < |sources| && sources[k].Unparsable? && forall i | 0 <= i < k :: sources[i].Absent?
  }

  lemma {:induction false} AnnotationIsUndecidable<T>(default: T, sources: seq<Annotation<T>>)
    ensures GetAnnotation(default, sources).Err? <==> Undecidable(sources)
  {
    if sources != [] && sources[0].Absent? {
      AnnotationIsUndecidable(default, sources[1..]);
      if Undecidable(sources[1..]) {
        var k :| 0 <= k < |sources[1..]| && sources[1..][k].Unparsable? && forall i | 0 <= i < k ::
          sources[1..][i].Absent?;
        forall i | 0 <= i < k + 1 ensures sources[i].Absent? { assert i > 0 ==> sources[1..][i - 1] == sources[i]; }
        assert sources[k + 1].Unparsable?;
      }
    } else if sources != [] && sources[0].Unparsable? {
      assert sources[0].Unparsable?;
    }
  }

  // ---- the settings of one ingress ----

  predicate IsPort(n: int) { 1 <= n <= 65535 }

  /** The annotations of ingress and class, in this order, give these settings, and the ports that are going to be
      used are ports. */
  ghost predicate HasSettings(cls: IngressClass, ing: Ingress, s: Settings) {
    var a, c := ing.annotations, cls.annotations;
    && !a.priority.Unparsable?
    && Decided(false, [a.httpsOnly, c.httpsOnly], s.httpsOnly)
    && Decided(80, [a.httpPort, c.httpPort], s.httpPort)
    && Decided(443, [a.httpsPort, c.httpsPort], s.httpsPort)
    && Decided(false, [a.webSocket, c.webSocket], s.webSocket)
    && (!s.httpsOnly ==> IsPort(s.httpPort))
    && (ing.tls != [] ==> IsPort(s.httpsPort))
  }

  /** The ingress is admitted with exactly the settings that its annotations ask for. */
  lemma SettingsIff(cls: IngressClass, ing: Ingress, s: Settings)
    ensures Settle(cls, ing) == Accepted(s) <==> HasSettings(cls, ing, s)
  {
    hide Decided, GetAnnotation;
    var a, c := ing.annotations, cls.annotations;
    AnnotationIsDecided(false, [a.httpsOnly, c.httpsOnly], s.httpsOnly);
    AnnotationIsDecided(80, [a.httpPort, c.httpPort], s.httpPort);
    AnnotationIsDecided(443, [a.httpsPort, c.httpsPort], s.httpsPort);
    AnnotationIsDecided(false, [a.webSocket, c.webSocket], s.webSocket);
    PriorityParses(ing);
  }

  lemma PriorityParses(ing: Ingress)
    ensures GetAnnotation(0, [ing.annotations.priority]).Err? <==> ing.annotations.priority.Unparsable?
  {
    assert [ing.annotations.priority][1..] == [];
  }

  /** Why an ingress is rejected as a whole. */
  ghost predicate Misconfigured(cls: IngressClass, ing: Ingress, kind: EventKind) {
    var a, c := ing.annotations, cls.annotations;
    match kind
    case InvalidPriority => a.priority.Unparsable?
    case InvalidHttpsOnly => Undecidable([a.httpsOnly, c.httpsOnly])
    case InvalidHttpPort => Undecidable([a.httpPort, c.httpPort])
    case InvalidHttpsPort => Undecidable([a.httpsPort, c.httpsPort])
    case InvalidWebSocket => Undecidable([a.webSocket, c.webSocket])
    case HttpPortOutOfRange =>
      Decided(false, [a.httpsOnly, c.httpsOnly], false)
      && exists port: int :: Decided(80, [a.httpPort, c.httpPort], port) && !IsPort(port)
    case HttpsPortOutOfRange =>
      ing.tls != [] && exists port: int :: Decided(443, [a.httpsPort, c.httpsPort], port) && !IsPort(port)
    case _ => false
  }

  /** The reason that is given for a rejection holds. */
  lemma RejectionHasReason(cls: IngressClass, ing: Ingress)
    ensures Settle(cls, ing).Rejected? ==> Misconfigured(cls, ing, Settle(cls, ing).kind)
  {
    hide Decided, GetAnnotation, Undecidable;
    var a, c := ing.annotations, cls.annotations;
    PriorityParses(ing);
    AnnotationIsUndecidable(false, [a.httpsOnly, c.httpsOnly]);
    AnnotationIsUndecidable(80, [a.httpPort, c.httpPort]);
    AnnotationIsUndecidable(443, [a.httpsPort, c.httpsPort]);
    AnnotationIsUndecidable(false, [a.webSocket, c.webSocket]);
    AnnotationIsDecided(false, [a.httpsOnly, c.httpsOnly], false);
    var httpPort := GetAnnotation(80, [a.httpPort, c.httpPort]);
    var httpsPort := GetAnnotation(443, [a.httpsPort, c.httpsPort]);
    if httpPort.Ok? { AnnotationIsDecided(80, [a.httpPort, c.httpPort], httpPort.value); }
    if httpsPort.Ok? { AnnotationIsDecided(443, [a.httpsPort, c.httpsPort], httpsPort.value); }
  }

  /** An ingress with a reason to be rejected is not admitted with any settings. */
  lemma MisconfiguredHasNoSettings(cls: IngressClass, ing: Ingress, kind: EventKind, s: Settings)
    requires Misconfigured(cls, ing, kind)
    ensures !HasSettings(cls, ing, s)
  {
    if HasSettings(cls, ing, s) {
      SettingsIff(cls, ing, s);
      ReasonRejects(cls, ing, kind);
    }
  }

  lemma ReasonRejects(cls: IngressClass, ing: Ingress, kind: EventKind)
    requires Misconfigured(cls, ing, kind)
    ensures Settle(cls, ing).Rejected?
  {
    hide Decided, GetAnnotation, Undecidable;
    var a, c := ing.annotations, cls.annotations;
    PriorityParses(ing);
    AnnotationIsUndecidable(false, [a.httpsOnly, c.httpsOnly]);
    AnnotationIsUndecidable(80, [a.httpPort, c.httpPort]);
    AnnotationIsUndecidable(443, [a.httpsPort, c.httpsPort]);
    AnnotationIsUndecidable(false, [a.webSocket, c.webSocket]);
    AnnotationIsDecided(false, [a.httpsOnly, c.httpsOnly], false);
    if kind == HttpPortOutOfRange {
      var port: int :| Decided(80, [a.httpPort, c.httpPort], port) && !IsPort(port);
      AnnotationIsDecided(80, [a.httpPort, c.httpPort], port);
    } else if kind == HttpsPortOutOfRange {
      var port: int :| Decided(443, [a.httpsPort, c.httpsPort], port) && !IsPort(port);
      AnnotationIsDecided(443, [a.httpsPort, c.httpsPort], port);
    }
  }

  // ---- the settings of the class ----

  /** The class is valid, and these are its settings. */
  ghost predicate ClassHasSettings(c: IngressClass, s: ClassSettings) {
    && c.networkMode == "NodePort"
    && (c.externalIP == "" || c.externalIPIsV4) && s.externalIP == c.externalIP
    && (c.planId == "" || c.planId == "p10") && s.planId == "p10"
    && !c.internal.Unparsable? && (s.internal <==> c.internal == Given(true))
    && |s.sourceRanges| == |c.sourceRanges|
    && (forall i | 0 <= i < |c.sourceRanges| :: c.sourceRanges[i].isCidr && s.sourceRanges[i] == c.sourceRanges[i].text)
    && (forall i, j | 0 <= i < j < |c.sourceRanges| :: c.sourceRanges[i].text != c.sourceRanges[j].text)
  }

  lemma RangesValidIff(ranges: seq<SourceRange>)
    ensures RangesValid(ranges) <==>
              && (forall i | 0 <= i < |ranges| :: ranges[i].isCidr)
              && (forall i, j | 0 <= i < j < |ranges| :: ranges[i].text != ranges[j].text)
  {
  }

  lemma InternalDecides(c: IngressClass)
    ensures GetAnnotation(false, [c.internal])
            == if c.internal.Unparsable? then Err else Ok(c.internal == Given(true))
  {
    var sources := [c.internal];
    assert sources[1..] == [] && sources[0] == c.internal;
    match c.internal
    case Absent => assert GetAnnotation(false, sources[1..]) == Ok(false);
    case Unparsable =>
    case Given(v) => assert v == (c.internal == Given(true));
  }

  lemma ClassSettingsIff(c: IngressClass, s: ClassSettings)
    ensures SettleClass(c) == Ok(s) <==> ClassHasSettings(c, s)
  {
    assert [c.internal][1..] == [];
    RangesValidIff(c.sourceRanges);
    assert forall plan :: plan in SERVICE_PLANS <==> plan == "p10";
    hide RangesValid;
    var texts := seq(|c.sourceRanges|, i requires 0 <= i < |c.sourceRanges| => c.sourceRanges[i].text);
    InternalDecides(c);
    if ClassHasSettings(c, s) {
      assert SettleClass(c).Ok?;
      assert s.sourceRanges == texts;
    }
    if SettleClass(c).Ok? { assert SettleClass(c).value.sourceRanges == texts; }
  }
}
