/** Many classes at once: their controller runs interleave freely and never get in each other's way. */
module System {
  import opened Options
  import opened Names
  import opened Certificates
  import opened Protocol
  import opened Safety
  import Api = AlbApi
  import Payload

  datatype Class = Class(uid: string, name: string) {
    function Me(): Protocol.Me {
      Protocol.Me(uid, LoadBalancerName(uid, name).GetOr(""))
    }
  }

  /** Uids as the cluster assigns them: distinct, of one length, not too long, not ending in a dash. */
  ghost predicate ValidClasses(classes: set<Class>) {
    && (forall c | c in classes :: ValidUid(c.uid) && ValidClassName(c.name))
    && (forall c, d | c in classes && d in classes :: |c.uid| == |d.uid| && (c != d ==> c.uid != d.uid))
  }

  lemma ClassesDoNotCollide(classes: set<Class>, c: Class, d: Class)
    requires ValidClasses(classes) && c in classes && d in classes && c != d
    ensures c.Me().uid != d.Me().uid && c.Me().lbName != d.Me().lbName
  {
    LoadBalancerNameSeparates(c.uid, c.name, d.uid, d.name);
    LoadBalancerNameDefined(c.uid, c.name);
    LoadBalancerNameDefined(d.uid, d.name);
  }

  // ---- one class next to another ----

  /** What a step of the controller for `me` may change outside its own object. */
  ghost predicate OnlyMine(me: Me, w: World, w': World) {
    && w'.albs - {me.lbName} == w.albs - {me.lbName}
    && forall id ::
         && (id in w.certs && !Owns(me, w.certs[id]) ==> id in w'.certs && w'.certs[id] == w.certs[id])
         && (id in w'.certs && !Owns(me, w'.certs[id]) ==> id in w.certs && w.certs[id] == w'.certs[id])
  }

  /** Isolation: whatever the controller does for one class leaves every other load balancer and every
      certificate with another label alone. */
  lemma ControllerTouchesOnlyItsOwn(me: Me, s: State, s': State)
    requires Inv(me, s) && CtrlStep(me, s, s')
    ensures OnlyMine(me, s.w, s'.w)
  {
    hide NextCleaning, Diff.NormalForm, PlanFor, IsListing, SameConfig, LiveRefs, HasFinalizer, LbReadBefore, Missing,
         Payload.IsCreatePayload, Payload.IsUpdatePayload;
    if CreateCert(me, s, s') {
      var f, id, reported :| CreateCertWith(me, s, s', f, id, reported);
    } else if CreateLb(me, s, s') {
      var p, lb :| CreateLbWith(me, s, s', p, lb);
    } else if UpdateLb(me, s, s') {
      var p, lb :| UpdateLbWith(me, s, s', p, lb);
    } else if DeleteCert(s, s') {
      var id :| DeleteCertWith(s, s', id);
      assert id in OwnedIds(me, s.w);
    } else if TearDeleteCert(s, s') {
      var id :| TearDeleteCertWith(s, s', id);
      assert id in OwnedIds(me, s.w);
    }
  }

  lemma OthersSeeTheEnvironment(me: Me, other: Me, w: World, w': World, v: World, v': World)
    requires OnlyMine(me, w, w') && other.uid != me.uid && other.lbName != me.lbName
    requires v.albs == w.albs && v.certs == w.certs && v'.albs == w'.albs && v'.certs == w'.certs
    requires v'.object_ == v.object_ && v'.calls == v.calls
    ensures EnvStep(other, v, v')
  {
    assert MyLb(other, v) == MyLb(other, v') by {
      assert other.lbName in w.albs <==> other.lbName in w.albs - {me.lbName};
      assert other.lbName in w'.albs <==> other.lbName in w'.albs - {me.lbName};
      if other.lbName in w.albs { assert (w.albs - {me.lbName})[other.lbName] == w.albs[other.lbName]; }
      if other.lbName in w'.albs { assert (w'.albs - {me.lbName})[other.lbName] == w'.albs[other.lbName]; }
    }
  }

  // ---- the whole system ----

  datatype Local = Local(object_: Option<ClassObject>, calls: seq<Call>, pc: PC)

  /** The stores are shared; the class object and the running reconcile belong to one class each. */
  datatype Sys = Sys(locals: map<Class, Local>, albs: map<string, Api.LoadBalancer>, certs: map<string, Certificate>)

  function View(sys: Sys, c: Class): State
    requires c in sys.locals
  {
    var l := sys.locals[c];
    State(World(l.object_, sys.albs, sys.certs, l.calls), l.pc)
  }

  /** The controller does one step for class `c`, and nothing else happens. */
  ghost predicate Acts(sys: Sys, sys': Sys, c: Class) {
    && c in sys.locals && sys'.locals.Keys == sys.locals.Keys
    && CtrlStep(c.Me(), View(sys, c), View(sys', c))
    && forall d | d in sys.locals && d != c :: sys'.locals[d] == sys.locals[d]
  }

  /** Something outside of the controller happens, to any of the classes. */
  ghost predicate EnvironmentActs(sys: Sys, sys': Sys) {
    && sys'.locals.Keys == sys.locals.Keys
    && forall c | c in sys.locals ::
         EnvStep(c.Me(), View(sys, c).w, View(sys', c).w) && View(sys', c).pc == View(sys, c).pc
  }

  ghost predicate SysNext(sys: Sys, sys': Sys) {
    EnvironmentActs(sys, sys') || exists c :: Acts(sys, sys', c)
  }

  ghost predicate SysInv(sys: Sys) {
    forall c | c in sys.locals :: Inv(c.Me(), View(sys, c))
  }

  lemma SysNextKeepsInv(sys: Sys, sys': Sys)
    requires ValidClasses(sys.locals.Keys) && SysInv(sys) && SysNext(sys, sys')
    ensures SysInv(sys') && sys'.locals.Keys == sys.locals.Keys
  {
    hide Inv, CtrlStep, EnvStep, ValidClasses, OnlyMine;
    if EnvironmentActs(sys, sys') {
      forall c | c in sys'.locals ensures Inv(c.Me(), View(sys', c)) {
        EnvKeepsInv(c.Me(), View(sys, c), View(sys', c));
      }
    } else {
      var c :| Acts(sys, sys', c);
      ControllerTouchesOnlyItsOwn(c.Me(), View(sys, c), View(sys', c));
      forall d | d in sys'.locals ensures Inv(d.Me(), View(sys', d)) {
        if d == c {
          NextKeepsInv(c.Me(), View(sys, c), View(sys', c));
        } else {
          ClassesDoNotCollide(sys.locals.Keys, c, d);
          OthersSeeTheEnvironment(c.Me(), d.Me(), View(sys, c).w, View(sys', c).w, View(sys, d).w, View(sys', d).w);
          EnvKeepsInv(d.Me(), View(sys, d), View(sys', d));
        }
      }
    }
  }

  ghost predicate IsSysRun(run: seq<Sys>) {
    && run != [] && ValidClasses(run[0].locals.Keys)
    && (forall c | c in run[0].locals :: Init(c.Me(), View(run[0], c)))
    && forall i | 0 <= i < |run| - 1 :: SysNext(run[i], run[i + 1])
  }

  lemma {:induction false} SysRunKeepsInv(run: seq<Sys>, i: nat)
    requires IsSysRun(run) && i < |run|
    ensures SysInv(run[i]) && run[i].locals.Keys == run[0].locals.Keys
  {
    hide Inv, Init, SysNext, ValidClasses;
    if i == 0 {
      forall c | c in run[0].locals ensures Inv(c.Me(), View(run[0], c)) {
        InitInv(c.Me(), View(run[0], c));
      }
    } else {
      SysRunKeepsInv(run, i - 1);
      SysNextKeepsInv(run[i - 1], run[i]);
    }
  }

  /** For all classes at all times: certificates in use exist, and nothing of a class outlives its finalizer. */
  lemma EveryClassIsSafe(run: seq<Sys>, i: nat, c: Class)
    requires IsSysRun(run) && i < |run| && c in run[i].locals
    ensures LiveRefs(c.Me(), View(run[i], c).w) <= OwnedIds(c.Me(), View(run[i], c).w)
    ensures c.Me().lbName in run[i].albs || OwnedIds(c.Me(), View(run[i], c).w) != {} ==>
              run[i].locals[c].object_.Some? && run[i].locals[c].object_.value.finalizer
  {
    hide PcInv, IsSysRun, LiveRefs;
    SysRunKeepsInv(run, i);
  }

  /** Reconciling or tearing down one class leaves the load balancers and certificates of all others as they are. */
  lemma ClassesAreIsolated(run: seq<Sys>, i: nat, c: Class, d: Class)
    requires IsSysRun(run) && i + 1 < |run| && Acts(run[i], run[i + 1], c) && d in run[i].locals && d != c
    ensures Lookup(run[i + 1].albs, d.Me().lbName) == Lookup(run[i].albs, d.Me().lbName)
    ensures forall id | id in run[i].certs && run[i].certs[id].owner == Some(d.uid) ::
              id in run[i + 1].certs && run[i + 1].certs[id] == run[i].certs[id]
    ensures forall id | id in run[i + 1].certs && run[i + 1].certs[id].owner == Some(d.uid) :: id in run[i].certs
  {
    SysRunKeepsInv(run, i);
    ClassesDoNotCollide(run[0].locals.Keys, c, d);
    hide IsSysRun, CtrlStep, Inv;
    var w, w' := View(run[i], c).w, View(run[i + 1], c).w;
    ControllerTouchesOnlyItsOwn(c.Me(), View(run[i], c), View(run[i + 1], c));
    var n := d.Me().lbName;
    assert n in w.albs - {c.Me().lbName} <==> n in w.albs;
    assert n in w'.albs - {c.Me().lbName} <==> n in w'.albs;
    if n in w.albs { assert (w.albs - {c.Me().lbName})[n] == w.albs[n]; }
    if n in w'.albs { assert (w'.albs - {c.Me().lbName})[n] == w'.albs[n]; }
  }
}
