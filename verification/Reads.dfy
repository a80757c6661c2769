/** What a build reads of the cluster is what the triggers watch. */
module Reads {
  import opened Options
  import opened Kube
  import opened Tree
  import opened Triggers
  import Api = AlbApi

  // ---- the services that an ingress names ----

  /** Some path of the ingress, or its default backend, names the service. */
  ghost predicate NamesService(ing: Ingress, name: string) {
    || (ing.defaultBackend.Some? && ing.defaultBackend.value.service == name)
    || exists r, p :: 0 <= r < |ing.rules| && PathNames(ing.rules[r], p, name)
  }

  ghost predicate PathNames(rule: IngressRule, p: int, name: string) {
    rule.http.Some? && 0 <= p < |rule.http.value| && rule.http.value[p].backend.Some?
      && rule.http.value[p].backend.value.service == name
  }

  lemma {:induction false} PathServicesIff(ing: Ingress, r: nat, n: nat, name: string)
    requires r < |ing.rules| && n <= ing.PathCount(r)
    ensures name in PathServices(ing, r, n) <==> name != "" && exists p ::
              0 <= p < n && PathNames(ing.rules[r], p, name)
  {
    if n > 0 {
      PathServicesIff(ing, r, n - 1, name);
      var backend := ing.rules[r].http.value[n - 1].backend;
      assert name in BackendName(backend) <==> name != "" && PathNames(ing.rules[r], n - 1, name);
    }
  }

  /** A rule without HTTP part has no paths, every other one has those it lists. */
  lemma PathCountIs(ing: Ingress, r: nat)
    requires r < |ing.rules|
    ensures ing.rules[r].http.Some? ==> ing.PathCount(r) == |ing.rules[r].http.value|
    ensures ing.rules[r].http.None? ==> ing.PathCount(r) == 0
  {
  }

  lemma {:induction false} RuleServicesIff(ing: Ingress, n: nat, name: string)
    requires n <= |ing.rules|
    ensures name in RuleServices(ing, n)
            <==> name != "" && exists r, p :: 0 <= r < n && PathNames(ing.rules[r], p, name)
  {
    hide PathServices;
    if n > 0 {
      RuleServicesIff(ing, n - 1, name);
      PathServicesIff(ing, n - 1, ing.PathCount(n - 1), name);
      PathCountIs(ing, n - 1);
    }
  }

  /** A reconcile looks up exactly the services that its ingresses name, in their namespaces. */
  lemma AsksIff(ing: Ingress, key: ObjectKey)
    ensures Asks(ing, key) <==> key.namespace == ing.namespace && key.name != "" && NamesService(ing, key.name)
  {
    RuleServicesIff(ing, |ing.rules|, key.name);
    IndexCoversReads(ing, key);
    hide RuleServices;
  }

  // ---- what is not read does not matter ----

  /** The two contexts agree on everything the ingress refers to. */
  ghost predicate Agree(ctx: Context, other: Context, ing: Ingress) {
    && other.class_ == ctx.class_ && other.targets == ctx.targets
    && (forall i | 0 <= i < |ing.tls| ::
          Lookup(other.secrets, ObjectKey(ing.namespace, ing.tls[i]))
          == Lookup(ctx.secrets, ObjectKey(ing.namespace, ing.tls[i])))
    && (forall r, p | 0 <= r < |ing.rules| && 0 <= p < ing.PathCount(r) && ing.rules[r].http.value[p].backend.Some? ::
          var key := ObjectKey(ing.namespace, ing.rules[r].http.value[p].backend.value.service);
          Lookup(other.services, key) == Lookup(ctx.services, key))
  }

  lemma PoolAgrees(ctx: Context, other: Context, t: WorkTree, ing: Ingress, r: nat, p: nat)
    requires Agree(ctx, other, ing) && r < |ing.rules| && p < ing.PathCount(r)
    ensures TargetPoolFor(other, t, ing, r, p) == TargetPoolFor(ctx, t, ing, r, p)
  {
    var backend := ing.rules[r].http.value[p].backend;
    if backend.Some? {
      var key := ObjectKey(ing.namespace, backend.value.service);
      assert Lookup(other.services, key) == Lookup(ctx.services, key);
    }
  }

  lemma {:induction false} TlsAgrees(ctx: Context, other: Context, b: Build, ing: Ingress, s: Settings, n: nat)
    requires Agree(ctx, other, ing) && n <= |ing.tls|
    ensures AdmitTlsUpTo(other, b, ing, s, n) == AdmitTlsUpTo(ctx, b, ing, s, n)
  {
    if n > 0 {
      TlsAgrees(ctx, other, b, ing, s, n - 1);
      var key := ObjectKey(ing.namespace, ing.tls[n - 1]);
      assert Lookup(other.secrets, key) == Lookup(ctx.secrets, key);
    }
  }

  lemma {:induction false} PathsAgree(ctx: Context, other: Context, b: Build, ing: Ingress, s: Settings, r: nat, n: nat)
    requires Agree(ctx, other, ing) && r < |ing.rules| && n <= ing.PathCount(r)
    ensures AdmitPathsUpTo(other, b, ing, s, r, n) == AdmitPathsUpTo(ctx, b, ing, s, r, n)
  {
    hide Agree, TargetPoolFor, AddHttp, AddHttps;
    if n > 0 {
      PathsAgree(ctx, other, b, ing, s, r, n - 1);
      PoolAgrees(ctx, other, AdmitPathsUpTo(ctx, b, ing, s, r, n - 1).tree, ing, r, n - 1);
    }
  }

  lemma {:induction false} RulesAgree(ctx: Context, other: Context, b: Build, ing: Ingress, s: Settings, n: nat)
    requires Agree(ctx, other, ing) && n <= |ing.rules|
    ensures AdmitRulesUpTo(other, b, ing, s, n) == AdmitRulesUpTo(ctx, b, ing, s, n)
  {
    hide Agree, AdmitPathsUpTo;
    if n > 0 {
      RulesAgree(ctx, other, b, ing, s, n - 1);
      PathsAgree(ctx, other, AdmitRulesUpTo(ctx, b, ing, s, n - 1), ing, s, n - 1, ing.PathCount(n - 1));
    }
  }

  lemma IngressAgrees(ctx: Context, other: Context, b: Build, ing: Ingress)
    requires Agree(ctx, other, ing)
    ensures AdmitIngress(other, b, ing) == AdmitIngress(ctx, b, ing)
  {
    assert other.class_ == ctx.class_;
    hide Agree, Settle, AdmitTlsUpTo, AdmitRulesUpTo;
    var verdict := Settle(ctx.class_, ing);
    if verdict.Accepted? {
      TlsAgrees(ctx, other, b, ing, verdict.settings, |ing.tls|);
      var tls := AdmitTlsUpTo(ctx, b, ing, verdict.settings, |ing.tls|);
      RulesAgree(ctx, other, tls, ing, verdict.settings, |ing.rules|);
    }
  }

  lemma {:induction false} AllAgree(ctx: Context, other: Context, b: Build, ings: seq<Ingress>)
    requires forall i | 0 <= i < |ings| :: Agree(ctx, other, ings[i])
    ensures AdmitAll(other, b, ings) == AdmitAll(ctx, b, ings)
  {
    hide Agree, AdmitIngress;
    if ings != [] {
      var n := |ings| - 1;
      AllAgree(ctx, other, b, ings[..n]);
      IngressAgrees(ctx, other, AdmitAll(ctx, b, ings[..n]), ings[n]);
    }
  }

  /** A service that no ingress of the class asks for can change, come or go without any effect on tree and events. So
      an event for it does not have to trigger the class. */
  lemma UnreadServiceDoesNotMatter(ctx: Context, ings: seq<Ingress>, key: ObjectKey, services: map<ObjectKey, Service>)
    requires key.name != "" && services - {key} == ctx.services - {key}
    requires forall i | 0 <= i < |ings| :: !Asks(ings[i], key)
    ensures AdmitAll(ctx.(services := services), EMPTY_BUILD, ings) == AdmitAll(ctx, EMPTY_BUILD, ings)
  {
    hide AdmitAll, Asks;
    forall i | 0 <= i < |ings| ensures Agree(ctx, ctx.(services := services), ings[i]) {
      AsksIff(ings[i], key);
      UnreadServiceAgrees(ctx, ings[i], key, services);
    }
    AllAgree(ctx, ctx.(services := services), EMPTY_BUILD, ings);
  }

  lemma UnreadServiceAgrees(ctx: Context, ing: Ingress, key: ObjectKey, services: map<ObjectKey, Service>)
    requires services - {key} == ctx.services - {key}
    requires !(key.namespace == ing.namespace && NamesService(ing, key.name))
    ensures Agree(ctx, ctx.(services := services), ing)
  {
    forall r, p | 0 <= r < |ing.rules| && 0 <= p < ing.PathCount(r) && ing.rules[r].http.value[p].backend.Some?
      ensures var k := ObjectKey(ing.namespace, ing.rules[r].http.value[p].backend.value.service);
        Lookup(services, k) == Lookup(ctx.services, k)
    {
      var k := ObjectKey(ing.namespace, ing.rules[r].http.value[p].backend.value.service);
      assert PathNames(ing.rules[r], p, k.name);
      OtherKeysStay(ctx.services, services, key, k);
    }
  }

  lemma OtherKeysStay<V>(m: map<ObjectKey, V>, n: map<ObjectKey, V>, key: ObjectKey, k: ObjectKey)
    requires n - {key} == m - {key} && k != key
    ensures Lookup(n, k) == Lookup(m, k)
  {
    assert k in n <==> k in n - {key};
    assert k in m <==> k in m - {key};
    if k in m { assert (m - {key})[k] == m[k] && (n - {key})[k] == n[k]; }
  }

  /** The same for a secret that no ingress of the class names. */
  lemma UnreadSecretDoesNotMatter(ctx: Context, ings: seq<Ingress>, key: ObjectKey, secrets: map<ObjectKey, Secret>)
    requires secrets - {key} == ctx.secrets - {key}
    requires forall i | 0 <= i < |ings| :: !(ings[i].namespace == key.namespace && key.name in ings[i].tls)
    ensures AdmitAll(ctx.(secrets := secrets), EMPTY_BUILD, ings) == AdmitAll(ctx, EMPTY_BUILD, ings)
  {
    hide AdmitAll;
    forall i | 0 <= i < |ings| ensures Agree(ctx, ctx.(secrets := secrets), ings[i]) {
      forall n | 0 <= n < |ings[i].tls|
        ensures Lookup(secrets, ObjectKey(ings[i].namespace, ings[i].tls[n]))
                == Lookup(ctx.secrets, ObjectKey(ings[i].namespace, ings[i].tls[n]))
      {
        assert ings[i].tls[n] in ings[i].tls;
        OtherKeysStay(ctx.secrets, secrets, key, ObjectKey(ings[i].namespace, ings[i].tls[n]));
      }
    }
    AllAgree(ctx, ctx.(secrets := secrets), EMPTY_BUILD, ings);
  }

  // ---- looking up objects ----

  /** A service is found under its namespace and name; the last one listed counts. */
  lemma ServiceIsFound(services: seq<Service>, s: Service)
    requires Keyed(ServiceKey, services) && s in services
    ensures Lookup(IndexServices(services), ObjectKey(s.namespace, s.name)) == Some(s)
  {
    IndexIsComplete(ServiceKey, services);
    IndexIsSound(ServiceKey, services);
  }

  lemma SecretIsFound(secrets: seq<Secret>, s: Secret)
    requires Keyed(SecretKey, secrets) && s in secrets
    ensures Lookup(IndexSecrets(secrets), ObjectKey(s.namespace, s.name)) == Some(s)
  {
    IndexIsComplete(SecretKey, secrets);
    IndexIsSound(SecretKey, secrets);
  }

  lemma LastOneCounts<T>(key: T -> ObjectKey, objects: seq<T>, last: T)
    ensures Lookup(IndexBy(key, objects + [last]), key(last)) == Some(last)
  {
  }
}
