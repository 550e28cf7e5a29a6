/** Probes, containers and Pods as values, and the JSON they are serialised to. Members whose Go tag says
    omitempty are left out of the JSON when they hold their zero value. Every member the controller never
    looks at travels in an opaque map. */
module ProbeModel {
  import opened Basics
  import opened Json

  const DELAY := "initialDelaySeconds"
  const TIMEOUT := "timeoutSeconds"
  const PERIOD := "periodSeconds"
  const SUCCESS := "successThreshold"
  const FAILURE := "failureThreshold"
  const LIVENESS := "livenessProbe"
  const READINESS := "readinessProbe"
  const STARTUP := "startupProbe"
  const PORTS := "ports"
  const METADATA := "metadata"
  const ANNOTATIONS := "annotations"
  const SPEC := "spec"
  const CONTAINERS := "containers"

  type Handler = m: map<string, Json> | m.Keys !! {DELAY, TIMEOUT, PERIOD, SUCCESS, FAILURE} witness map[]
  type ContainerRest = m: map<string, Json> | m.Keys !! {LIVENESS, READINESS, STARTUP, PORTS} witness map[]
  type MetaRest = m: map<string, Json> | ANNOTATIONS !in m witness map[]
  type SpecRest = m: map<string, Json> | CONTAINERS !in m witness map[]
  type PodRest = m: map<string, Json> | m.Keys !! {METADATA, SPEC} witness map[]

  /** `handler` holds httpGet, tcpSocket, exec, grpc and terminationGracePeriodSeconds. */
  datatype Probe = Probe(handler: Handler, initialDelaySeconds: int32, timeoutSeconds: int32,
                         periodSeconds: int32, successThreshold: int32, failureThreshold: int32)

  datatype Container = Container(liveness: Option<Probe>, readiness: Option<Probe>, startup: Option<Probe>,
                                 ports: seq<Json>, rest: ContainerRest)

  datatype Pod = Pod(annotations: map<string, string>, containers: seq<Container>,
                     meta: MetaRest, spec: SpecRest, rest: PodRest)

  /** A numeric member with omitempty. */
  function WithNumber(m: map<string, Json>, name: string, n: int): map<string, Json> {
    if n == 0 then m else m[name := Num(n)]
  }

  function Timing(p: Probe): map<string, Json> {
    WithNumber(WithNumber(WithNumber(p.handler, TIMEOUT, p.timeoutSeconds),
      PERIOD, p.periodSeconds), SUCCESS, p.successThreshold)
  }

  function WithThreshold(p: Probe, zero: bool): map<string, Json> {
    if zero then Timing(p)[FAILURE := Num(p.failureThreshold)]
    else WithNumber(Timing(p), FAILURE, p.failureThreshold)
  }

  /** The JSON of a probe. `zero` says that a patch wrote the member failureThreshold, so that it is present
      even when it is 0; a freshly serialised probe has `zero` false. */
  function EncodeProbe(p: Probe, zero: bool): Json {
    Obj(WithNumber(WithThreshold(p, zero), DELAY, p.initialDelaySeconds))
  }

  function WithProbe(m: map<string, Json>, name: string, p: Option<Probe>, zero: bool): map<string, Json> {
    match p case None => m case Some(q) => m[name := EncodeProbe(q, zero)]
  }

  datatype Zeros = Zeros(liveness: bool, readiness: bool)

  const FRESH := Zeros(false, false)

  function ContainerMembers(c: Container, z: Zeros): map<string, Json> {
    var m := if c.ports == [] then c.rest else c.rest[PORTS := Arr(c.ports)];
    WithProbe(WithProbe(WithProbe(m, LIVENESS, c.liveness, z.liveness), READINESS, c.readiness, z.readiness),
      STARTUP, c.startup, false)
  }

  function EncodeContainer(c: Container, z: Zeros): Json {
    Obj(ContainerMembers(c, z))
  }

  function EncodeStrings(m: map<string, string>): Json {
    Obj(map k | k in m :: Str(m[k]))
  }

  function EncodeContainers(cs: seq<Container>, zs: seq<Zeros>): seq<Json>
    requires |cs| == |zs|
  {
    seq(|cs|, i requires 0 <= i < |cs| => EncodeContainer(cs[i], zs[i]))
  }

  function EncodeMeta(pod: Pod): Json {
    Obj(if pod.annotations == map[] then pod.meta else pod.meta[ANNOTATIONS := EncodeStrings(pod.annotations)])
  }

  function EncodePod(pod: Pod, zs: seq<Zeros>): Json
    requires |zs| == |pod.containers|
  {
    Obj(pod.rest[METADATA := EncodeMeta(pod)]
          [SPEC := Obj(pod.spec[CONTAINERS := Arr(EncodeContainers(pod.containers, zs))])])
  }

  function AllFresh(n: nat): seq<Zeros> { seq(n, _ => FRESH) }

  /** What the API server reads back from the JSON of a probe: an absent number is 0. */
  function NumberOr0(m: map<string, Json>, name: string): int32 {
    if name in m && m[name].Num? then Wrap32(m[name].n) else 0
  }

  function DecodeProbe(j: Json): Probe {
    var m := if j.Obj? then j.members else map[];
    Probe(m - {DELAY, TIMEOUT, PERIOD, SUCCESS, FAILURE}, NumberOr0(m, DELAY), NumberOr0(m, TIMEOUT),
          NumberOr0(m, PERIOD), NumberOr0(m, SUCCESS), NumberOr0(m, FAILURE))
  }

  function DecodeProbeAt(m: map<string, Json>, name: string): Option<Probe> {
    if name in m then Some(DecodeProbe(m[name])) else None
  }

  function DecodeContainer(j: Json): Container {
    var m := if j.Obj? then j.members else map[];
    Container(DecodeProbeAt(m, LIVENESS), DecodeProbeAt(m, READINESS), DecodeProbeAt(m, STARTUP),
              if PORTS in m && m[PORTS].Arr? then m[PORTS].elems else [],
              m - {LIVENESS, READINESS, STARTUP, PORTS})
  }

  function MembersAt(m: map<string, Json>, name: string): map<string, Json> {
    if name in m && m[name].Obj? then m[name].members else map[]
  }

  function DecodeContainers(js: seq<Json>): seq<Container> {
    seq(|js|, i requires 0 <= i < |js| => DecodeContainer(js[i]))
  }

  function DecodePod(j: Json): Pod {
    var m := if j.Obj? then j.members else map[];
    var meta, spec := MembersAt(m, METADATA), MembersAt(m, SPEC);
    var anns := MembersAt(meta, ANNOTATIONS);
    Pod(map k | k in anns && anns[k].Str? :: anns[k].s,
        if CONTAINERS in spec && spec[CONTAINERS].Arr? then DecodeContainers(spec[CONTAINERS].elems) else [],
        meta - {ANNOTATIONS}, spec - {CONTAINERS}, m - {METADATA, SPEC})
  }

  lemma ProbeNamesDiffer()
    ensures DELAY != TIMEOUT && DELAY != PERIOD && DELAY != SUCCESS && DELAY != FAILURE
    ensures TIMEOUT != PERIOD && TIMEOUT != SUCCESS && TIMEOUT != FAILURE
    ensures PERIOD != SUCCESS && PERIOD != FAILURE && SUCCESS != FAILURE
  {
    assert DELAY[0] == 'i' && TIMEOUT[0] == 't' && PERIOD[0] == 'p' && SUCCESS[0] == 's' && FAILURE[0] == 'f';
  }

  lemma DecodeEncodeProbe(p: Probe, zero: bool)
    ensures DecodeProbe(EncodeProbe(p, zero)) == p
  {
    ProbeNamesDiffer();
    var m := EncodeProbe(p, zero).members;
    assert NumberOr0(m, DELAY) == p.initialDelaySeconds && NumberOr0(m, FAILURE) == p.failureThreshold;
    assert NumberOr0(m, SUCCESS) == p.successThreshold && NumberOr0(m, PERIOD) == p.periodSeconds;
    assert m - {DELAY, TIMEOUT, PERIOD, SUCCESS, FAILURE} == p.handler;
  }

  lemma ContainerNamesDiffer()
    ensures LIVENESS != READINESS && LIVENESS != STARTUP && LIVENESS != PORTS
    ensures READINESS != STARTUP && READINESS != PORTS && STARTUP != PORTS
  {
    assert LIVENESS[0] == 'l' && READINESS[0] == 'r' && STARTUP[0] == 's' && PORTS[0] == 'p';
  }

  lemma DecodeEncodeContainer(c: Container, z: Zeros)
    ensures DecodeContainer(EncodeContainer(c, z)) == c
  {
    ContainerNamesDiffer();
    var m := ContainerMembers(c, z);
    assert m - {LIVENESS, READINESS, STARTUP, PORTS} == c.rest;
    if c.liveness.Some? { DecodeEncodeProbe(c.liveness.value, z.liveness); }
    if c.readiness.Some? { DecodeEncodeProbe(c.readiness.value, z.readiness); }
    if c.startup.Some? { DecodeEncodeProbe(c.startup.value, false); }
  }

  /** Serialisation loses nothing, with or without explicit zeros. */
  lemma DecodeEncodePod(pod: Pod, zs: seq<Zeros>)
    requires |zs| == |pod.containers|
    ensures DecodePod(EncodePod(pod, zs)) == pod
  {
    var j := EncodePod(pod, zs);
    var js := EncodeContainers(pod.containers, zs);
    var meta := EncodeMeta(pod).members;
    assert j.members - {METADATA, SPEC} == pod.rest;
    assert meta - {ANNOTATIONS} == pod.meta;
    assert j.members[SPEC].members - {CONTAINERS} == pod.spec;
    forall i | 0 <= i < |js| ensures DecodeContainers(js)[i] == pod.containers[i] {
      DecodeEncodeContainer(pod.containers[i], zs[i]);
    }
    assert DecodeContainers(js) == pod.containers;
    var anns := MembersAt(meta, ANNOTATIONS);
    assert (map k | k in anns && anns[k].Str? :: anns[k].s) == pod.annotations;
  }
}
