/** Which path a pod admission takes and when the sidecar path asks for settings, read from the pod and the
    configuration. */
module AdmissionPaths {
  import opened Prelude
  import opened Workload
  import opened EnvAppend
  import opened SidecarSettings
  import opened PodInjection

  /** Equal but for the case of ASCII letters; `word` is in lower case. */
  predicate EqualFold(s: string, word: string) {
    |s| == |word| && forall i :: 0 <= i < |s| ==> s[i] == word[i] || ('A' <= s[i] <= 'Z' && s[i] as int + 32 == word[i] as int)
  }

  lemma {:induction false} ToLowerIs(s: string, word: string)
    requires forall i :: 0 <= i < |word| ==> 'a' <= word[i] <= 'z'
    ensures ToLower(s) == word <==> EqualFold(s, word)
  {
    if s != "" && word != "" {
      ToLowerIs(s[1..], word[1..]);
      var lower := ToLower(s);
      assert lower[1..] == ToLower(s[1..]);
      assert lower == [lower[0]] + lower[1..] && word == [word[0]] + word[1..];
      assert EqualFold(s, word) ==> EqualFold(s[1..], word[1..]);
    }
  }

  /** One of the words that ask Istio to inject its sidecar. */
  predicate IsYes(selector: string) {
    EqualFold(selector, "y") || EqualFold(selector, "yes") || EqualFold(selector, "true") || EqualFold(selector, "on")
  }

  lemma InjectionIsRequiredIff(pod: Pod, selector: string)
    requires selector == if "sidecar.istio.io/inject" in pod.labels then pod.labels["sidecar.istio.io/inject"]
                         else Get(pod.annotations, "sidecar.istio.io/inject")
    ensures InjectIstioRequired(pod) <==> IsYes(selector)
  {
    ToLowerIs(selector, "y");
    ToLowerIs(selector, "yes");
    ToLowerIs(selector, "true");
    ToLowerIs(selector, "on");
  }

  /** A pod without containers is let through, and one whose deployment cannot be found is denied. Of the others those
      marked for the sidecar never get the agent, and all the rest get it. */
  lemma PathOf(cfg: PodConfig, pod: Pod, out: PodOutcome)
    requires Outcome(cfg, pod, out)
    ensures pod.containers == [] ==> out == Unchanged
    ensures pod.containers != [] ==> (out == Denied <==> cfg.deployment.None?)
    ensures pod.containers != [] && cfg.deployment.Some?
            && Lookup(pod.labels, "jmsf.jd.com/enhance") != Some("sidecar")
            && Lookup(pod.labels, "sidecar.istio.io/inject") != Some("true") ==>
            out.Target? && AgentInjected(cfg, cfg.deployment.value, pod, out.pod)
  {
  }

  /** A pod marked for the sidecar is changed only when settings are switched on, Istio has not injected it yet, and it
      asks for injection, its label being read before its annotation. Even then a refusing control plane leaves it as it
      is, and only a pod whose space, service, cluster and deployment are all known is asked for. */
  lemma SidecarOutcome(cfg: PodConfig, pod: Pod, out: PodOutcome, selector: string, space: string, asked: bool)
    requires Outcome(cfg, pod, out) && pod.containers != [] && cfg.deployment.Some?
    requires Lookup(pod.labels, "jmsf.jd.com/enhance") == Some("sidecar")
             || Lookup(pod.labels, "sidecar.istio.io/inject") == Some("true")
    requires selector == if "sidecar.istio.io/inject" in pod.labels then pod.labels["sidecar.istio.io/inject"]
                         else Get(pod.annotations, "sidecar.istio.io/inject")
    requires space == if Get(pod.labels, "jmsf.jd.com/space") != "" then Get(pod.labels, "jmsf.jd.com/space")
                      else Get(pod.labels, "jmsf.jd.com/service-space")
    requires asked <==> space != "" && Get(pod.labels, "jmsf.jd.com/service") != ""
                        && cfg.clusterId != "" && cfg.deployment.value != ""
    ensures var wanted := cfg.enableSidecarSetting == "true" && "sidecar.istio.io/status" !in pod.annotations && IsYes(selector);
      if !wanted then out == Target(pod)
      else if asked && cfg.reply.Refused? then out == Unchanged
      else if asked && cfg.reply.Settings? then
        var data := cfg.reply.data;
        out.Target? && Configured(pod, SidecarConfig(Fold(data, "label"), Fold(data, "environment"), Fold(data, "annotation")),
                                  out.pod)
      else out == Target(pod)
  {
    InjectionIsRequiredIff(pod, selector);
    if out.Target? && Configured(pod, SidecarConfig(map[], map[], map[]), out.pod) {
      NoSettingsChangeNothing(pod, out.pod);
    }
  }

  lemma NoSettingsChangeNothing(pod: Pod, r: Pod)
    requires Configured(pod, SidecarConfig(map[], map[], map[]), r)
    ensures r == pod
  {
    UnchangedIffNothingMissing(pod.containers[0].env, map[], r.containers[0].env);
    assert map[] + pod.labels == pod.labels && map[] + pod.annotations == pod.annotations;
  }
}
