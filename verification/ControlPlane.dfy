/** GetApplicationEnvironments of pkg/resource/control.go after the control plane has answered. */
module ControlPlane {
  import opened Prelude
  import opened ConfigLabels
  import opened Strings

  /** A failed request reads as no env vars; a bad status, body or error field stops the admission. */
  datatype EnvReply = Unreachable | Refused | Envs(data: StringMap)

  function FirstNonEmpty(labels: StringMap, first: string, second: string): string {
    if Get(labels, first) != "" then Get(labels, first) else Get(labels, second)
  }

  /** The control plane is asked only when space and application are both known. */
  predicate Asks(labels: StringMap) {
    && FirstNonEmpty(labels, SERVICE_SPACE, JDAP_SERVICE_SPACE) != ""
    && FirstNonEmpty(labels, APPLICATION, JDAP_APPLICATION) != ""
  }

  predicate Sensitive(key: string) {
    HasSuffix(key, "USERNAME") || HasSuffix(key, "PASSWORD")
  }

  function Filtered(data: StringMap, filter: string): StringMap {
    map k | k in data && !(filter == "true" && Sensitive(k)) :: data[k]
  }

  /** What the labels alone decide; None where they say nothing. */
  function FromLabels(labels: StringMap, name: string): Option<string> {
    match name
    case "APPLICATION_NAME" =>
      if Asks(labels) then Some(FirstNonEmpty(labels, APPLICATION, JDAP_APPLICATION)) else None
    case "APPLICATION_SERVICE_NAMESPACE" =>
      if Asks(labels) then Some(FirstNonEmpty(labels, SERVICE_SPACE, JDAP_SERVICE_SPACE)) else None
    case "CONFIG_REGISTRY_ENABLED" => Lookup(labels, REGISTER_TYPE)
    case "CONFIG_CENTER_ENABLED" => Lookup(labels, CONFIGURE_TYPE)
    case "APPLICATION_SERVICE_GROUP" => Some(if SERVICE_GROUP in labels then labels[SERVICE_GROUP] else "default")
    case "APPLICATION_SERVICE_NAME" => Lookup(labels, SERVICE_NAME)
    case "CONFIG_LANE_ENABLED" => Some("true")
    case "APPLICATION_LOCATION_LANE" => Some(if SWIM_LANE in labels then labels[SWIM_LANE] else BASE_SWIMLANE_CODE)
    case _ => None
  }

  const SERVICE_NAMES: set<string> := {"APPLICATION_NAME", "APPLICATION_SERVICE_NAMESPACE", "CONFIG_REGISTRY_ENABLED",
    "CONFIG_CENTER_ENABLED"}

  const PLACEMENT_NAMES: set<string> := {"APPLICATION_SERVICE_GROUP", "APPLICATION_SERVICE_NAME", "CONFIG_LANE_ENABLED",
    "APPLICATION_LOCATION_LANE"}

  function PartFor(labels: StringMap, names: set<string>): StringMap {
    map n | n in names && FromLabels(labels, n).Some? :: FromLabels(labels, n).value
  }

  function LabelPart(labels: StringMap): StringMap {
    PartFor(labels, SERVICE_NAMES + PLACEMENT_NAMES)
  }

  /** None when the admission must fail; otherwise the labels' values over the filtered reply. */
  function ApplicationEnvs(labels: StringMap, filter: string, reply: EnvReply): Option<StringMap> {
    if !Asks(labels) then Some(LabelPart(labels))
    else match reply
      case Unreachable => Some(map[])
      case Refused => None
      case Envs(data) => Some(Filtered(data, filter) + LabelPart(labels))
  }

  method FilterReply(data: StringMap, filter: string) returns (envMaps: StringMap)
    ensures envMaps == Filtered(data, filter)
  {
    envMaps := map[];
    var todo := data.Keys;
    while todo != {}
      invariant todo <= data.Keys
      invariant envMaps == map k | k in data.Keys - todo && !(filter == "true" && Sensitive(k)) :: data[k]
      decreases |todo|
    {
      var key :| key in todo;
      if !(|filter| != 0 && filter == "true" && Sensitive(key)) {
        envMaps := envMaps[key := data[key]];
      }
      todo := todo - {key};
    }
  }

  /** The label-derived entries, written one after the other. */
  method AddLabelEnvs(start: StringMap, labels: StringMap, asked: bool, application: string, space: string)
    returns (envMaps: StringMap)
    requires asked == Asks(labels)
    requires application == FirstNonEmpty(labels, APPLICATION, JDAP_APPLICATION)
    requires space == FirstNonEmpty(labels, SERVICE_SPACE, JDAP_SERVICE_SPACE)
    ensures forall n :: SameAt(envMaps, start + LabelPart(labels), n)
  {
    var mid := AddServiceEnvs(start, labels, asked, application, space);
    envMaps := AddPlacementEnvs(mid, labels);
    SameEverywhere(mid, start + PartFor(labels, SERVICE_NAMES));
    SameEverywhere(envMaps, mid + PartFor(labels, PLACEMENT_NAMES));
    PartsAdd(start, labels, SERVICE_NAMES, PLACEMENT_NAMES);
  }

  lemma PartsAdd(start: StringMap, labels: StringMap, a: set<string>, b: set<string>)
    ensures (start + PartFor(labels, a)) + PartFor(labels, b) == start + PartFor(labels, a + b)
  {
  }

  method AddServiceEnvs(start: StringMap, labels: StringMap, asked: bool, application: string, space: string)
    returns (envMaps: StringMap)
    requires asked == Asks(labels)
    requires application == FirstNonEmpty(labels, APPLICATION, JDAP_APPLICATION)
    requires space == FirstNonEmpty(labels, SERVICE_SPACE, JDAP_SERVICE_SPACE)
    ensures forall n :: SameAt(envMaps, start + PartFor(labels, SERVICE_NAMES), n)
  {
    envMaps := start;
    if asked {
      envMaps := envMaps["APPLICATION_NAME" := application];
      envMaps := envMaps["APPLICATION_SERVICE_NAMESPACE" := space];
    }
    if REGISTER_TYPE in labels {
      envMaps := envMaps["CONFIG_REGISTRY_ENABLED" := labels[REGISTER_TYPE]];
    }
    if CONFIGURE_TYPE in labels {
      envMaps := envMaps[CONFIG_CENTER_ENABLED := labels[CONFIGURE_TYPE]];
    }
  }

  method AddPlacementEnvs(start: StringMap, labels: StringMap) returns (envMaps: StringMap)
    ensures forall n :: SameAt(envMaps, start + PartFor(labels, PLACEMENT_NAMES), n)
  {
    envMaps := start;
    envMaps := envMaps["APPLICATION_SERVICE_GROUP" := if SERVICE_GROUP in labels then labels[SERVICE_GROUP] else "default"];
    if SERVICE_NAME in labels {
      envMaps := envMaps["APPLICATION_SERVICE_NAME" := labels[SERVICE_NAME]];
    }
    envMaps := envMaps["CONFIG_LANE_ENABLED" := "true"];
    envMaps := envMaps["APPLICATION_LOCATION_LANE" := if SWIM_LANE in labels then labels[SWIM_LANE] else BASE_SWIMLANE_CODE];
  }

  method GetApplicationEnvironments(labels: StringMap, filter: string, reply: EnvReply) returns (envs: Option<StringMap>)
    ensures envs == ApplicationEnvs(labels, filter, reply)
  {
    var space, application := Get(labels, SERVICE_SPACE), Get(labels, APPLICATION);
    if |space| == 0 {
      space := Get(labels, JDAP_SERVICE_SPACE);
    }
    if |application| == 0 {
      application := Get(labels, JDAP_APPLICATION);
    }
    var envMaps: StringMap := map[];
    var asked := |space| != 0 && |application| != 0;
    if asked {
      match reply {
        case Unreachable => return Some(map[]);
        case Refused => return None;
        case Envs(data) => envMaps := FilterReply(data, filter);
      }
    }
    ghost var start := envMaps;
    envMaps := AddLabelEnvs(envMaps, labels, asked, application, space);
    SameEverywhere(envMaps, start + LabelPart(labels));
    assert map[] + LabelPart(labels) == LabelPart(labels);
    envs := Some(envMaps);
  }

  // ----- what the envs are, read from the labels and the reply -----

  /** What space and application the control plane is asked about; a second label stands in for an empty first one. */
  predicate AskedAbout(labels: StringMap, space: string, application: string) {
    && space == (if Get(labels, SERVICE_SPACE) == "" then Get(labels, JDAP_SERVICE_SPACE) else labels[SERVICE_SPACE])
    && application == (if Get(labels, APPLICATION) == "" then Get(labels, JDAP_APPLICATION) else labels[APPLICATION])
  }

  /** With space and application known a refusal fails the admission and silence means no env vars, not even those
      that the labels give; without one of them the control plane is never asked. */
  lemma RepliesThatStop(labels: StringMap, filter: string, reply: EnvReply, space: string, application: string)
    requires AskedAbout(labels, space, application)
    ensures ApplicationEnvs(labels, filter, reply).None? <==> reply.Refused? && space != "" && application != ""
    ensures ApplicationEnvs(labels, filter, reply) == Some(map[]) <==>
            reply.Unreachable? && space != "" && application != ""
    ensures space == "" || application == "" ==>
            ApplicationEnvs(labels, filter, reply) == ApplicationEnvs(labels, filter, Unreachable)
  {
    var envs := ApplicationEnvs(labels, filter, reply);
    assert envs.Some? && !(Asks(labels) && reply.Unreachable?) ==> "CONFIG_LANE_ENABLED" in envs.value;
  }

  /** Application and space are the ones asked about, whatever the reply says of them. */
  lemma IdentityEnvs(labels: StringMap, filter: string, reply: EnvReply, space: string, application: string, n: string)
    requires AskedAbout(labels, space, application) && n in {"APPLICATION_NAME", "APPLICATION_SERVICE_NAMESPACE"}
    requires reply.Envs?
    ensures ApplicationEnvs(labels, filter, reply).Some?
    ensures Lookup(ApplicationEnvs(labels, filter, reply).value, n) ==
            if space == "" || application == "" then None
            else Some(if n == "APPLICATION_NAME" then application else space)
  {
  }

  /** Switches, service, group and lane are the labels', whatever the reply says of them; a missing group or lane has a
      default, and the other missing labels leave it to the reply. */
  lemma PlacementEnvs(labels: StringMap, filter: string, reply: EnvReply)
    requires ApplicationEnvs(labels, filter, reply).Some? && ApplicationEnvs(labels, filter, reply) != Some(map[])
    ensures var m := ApplicationEnvs(labels, filter, reply).value;
      && Lookup(m, "CONFIG_LANE_ENABLED") == Some("true")
      && Lookup(m, "APPLICATION_SERVICE_GROUP") == Some(if SERVICE_GROUP in labels then labels[SERVICE_GROUP] else "default")
      && Lookup(m, "APPLICATION_LOCATION_LANE") == Some(if SWIM_LANE in labels then labels[SWIM_LANE] else "base")
      && (SERVICE_NAME in labels ==> Lookup(m, "APPLICATION_SERVICE_NAME") == Some(labels[SERVICE_NAME]))
      && (REGISTER_TYPE in labels ==> Lookup(m, "CONFIG_REGISTRY_ENABLED") == Some(labels[REGISTER_TYPE]))
      && (CONFIGURE_TYPE in labels ==> Lookup(m, "CONFIG_CENTER_ENABLED") == Some(labels[CONFIGURE_TYPE]))
  {
  }

  /** Every other name is the reply's, and only the control plane's filter keeps it out. */
  lemma ReplyEnvs(labels: StringMap, filter: string, data: StringMap, space: string, application: string, n: string)
    requires AskedAbout(labels, space, application)
    requires n !in {"APPLICATION_NAME", "APPLICATION_SERVICE_NAMESPACE", "CONFIG_LANE_ENABLED",
                    "APPLICATION_SERVICE_GROUP", "APPLICATION_LOCATION_LANE"}
    requires n == "APPLICATION_SERVICE_NAME" ==> SERVICE_NAME !in labels
    requires n == "CONFIG_REGISTRY_ENABLED" ==> REGISTER_TYPE !in labels
    requires n == "CONFIG_CENTER_ENABLED" ==> CONFIGURE_TYPE !in labels
    ensures ApplicationEnvs(labels, filter, Envs(data)).Some?
    ensures Lookup(ApplicationEnvs(labels, filter, Envs(data)).value, n) ==
            if space == "" || application == "" || n !in data then None
            else if filter == "true" && |n| >= 8 && n[|n| - 8..] in {"USERNAME", "PASSWORD"} then None
            else Some(data[n])
  {
    assert |"USERNAME"| == 8 && |"PASSWORD"| == 8;
  }
}
