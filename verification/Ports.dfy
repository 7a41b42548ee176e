/** Container ports and the merge of a service's ports. */
module Ports {
  import opened Objects
  import opened Names

  datatype ContainerPort = ContainerPort(name: string, containerPort: int32, protocol: string)

  datatype ServicePort = ServicePort(
    name: string, protocol: string, port: int32, targetPort: int32, nodePort: int32)

  function LowerChar(c: char): char {
    if 'A' <= c <= 'Z' then c + 32 as char else c
  }

  function UpperChar(c: char): char {
    if 'a' <= c <= 'z' then c - 32 as char else c
  }

  function ToLower(s: string): string {
    seq(|s|, i requires 0 <= i < |s| => LowerChar(s[i]))
  }

  function ToUpper(s: string): string {
    seq(|s|, i requires 0 <= i < |s| => UpperChar(s[i]))
  }

  /** `buildContainerPort`. */
  function BuildContainerPort(p: Port): ContainerPort {
    ContainerPort(SubName(ToLower(p.protocol), p.port), p.port, ToUpper(p.protocol))
  }

  function ContainerPorts(ports: seq<Port>): seq<ContainerPort> {
    seq(|ports|, i requires 0 <= i < |ports| => BuildContainerPort(ports[i]))
  }

  method ConvertOriginPorts(originPorts: seq<Port>) returns (ports: seq<ContainerPort>)
    ensures ports == ContainerPorts(originPorts) && DescribesPorts(ports, originPorts)
  {
    ports := [];
    for i := 0 to |originPorts|
      invariant ports == ContainerPorts(originPorts)[..i]
    {
      ports := ports + [BuildContainerPort(originPorts[i])];
    }
  }

  /** A container port, field by field. */
  predicate DescribesPort(c: ContainerPort, p: Port) {
    && c.name == ToLower(p.protocol) + "-" + Decimal(p.port)
    && c.containerPort == p.port && c.protocol == ToUpper(p.protocol)
  }

  predicate DescribesPorts(cs: seq<ContainerPort>, ps: seq<Port>) {
    |cs| == |ps| && forall i | 0 <= i < |ps| :: DescribesPort(cs[i], ps[i])
  }

  /** The enum the CRD validates a protocol against. */
  predicate ValidProtocol(p: Port) {
    p.protocol in {"tcp", "udp", "sctp"}
  }

  /** The valid protocols are stored in upper case. */
  lemma ProtocolsUpper()
    ensures ToUpper("tcp") == "TCP" && ToUpper("udp") == "UDP" && ToUpper("sctp") == "SCTP"
    ensures ToLower("TCP") == "tcp" && ToLower("UDP") == "udp" && ToLower("SCTP") == "sctp"
  {
  }

  /** A port's name determines its protocol and its number. */
  lemma NameDeterminesPort(p: Port, q: Port)
    requires ValidProtocol(p) && ValidProtocol(q)
    ensures BuildContainerPort(p).name == BuildContainerPort(q).name <==>
            p.port == q.port && p.protocol == q.protocol
  {
    assert ToLower(p.protocol) == p.protocol && ToLower(q.protocol) == q.protocol;
    SubNameCollides(p.protocol, p.port, q.protocol, q.port);
    assert forall s | s in {"tcp", "udp", "sctp"} :: s[|s| - 1] == 'p';
    assert (p.protocol + "-")[|p.protocol|] == '-' && (q.protocol + "-")[|q.protocol|] == '-';
  }

  /** The exported ports of a container list, in order. */
  function ExportedPorts(ports: seq<Port>): seq<Port> {
    if ports == [] then []
    else
      var last := ports[|ports| - 1];
      ExportedPorts(ports[..|ports| - 1]) + if last.exported then [last] else []
  }

  function Exported(containers: seq<ContainerSpec>): seq<Port> {
    if containers == [] then []
    else Exported(containers[..|containers| - 1]) + ExportedPorts(containers[|containers| - 1].ports)
  }

  predicate IsFirstNamed(ports: seq<ServicePort>, name: string, j: nat) {
    && j < |ports| && ports[j].name == name
    && forall i | 0 <= i < j :: ports[i].name != name
  }

  function NewServicePort(p: ContainerPort): ServicePort {
    ServicePort(p.name, p.protocol, p.containerPort, p.containerPort, 0)
  }

  /** A port made for `wanted`: the same number on the service and the container, its protocol in upper case,
      and no node port yet. */
  predicate IsNewPort(wanted: Port, result: ServicePort) {
    && result.name == ToLower(wanted.protocol) + "-" + Decimal(wanted.port)
    && result.protocol == ToUpper(wanted.protocol)
    && result.port == wanted.port && result.targetPort == wanted.port && result.nodePort == 0
  }

  /** `result` serves `wanted`, given the ports the service had: it keeps the first port of the same
      name as it was, and makes a new one only if there was none. */
  ghost predicate Serves(existing: seq<ServicePort>, wanted: Port, result: ServicePort) {
    var p := BuildContainerPort(wanted);
    || (exists j: nat :: IsFirstNamed(existing, p.name, j) && result == existing[j])
    || ((forall i | 0 <= i < |existing| :: existing[i].name != p.name) && IsNewPort(wanted, result))
  }

  ghost predicate AllServed(existing: seq<ServicePort>, wanted: seq<Port>, merged: seq<ServicePort>) {
    |merged| == |wanted| && forall i | 0 <= i < |wanted| :: Serves(existing, wanted[i], merged[i])
  }

  ghost predicate IsMerge(containers: seq<ContainerSpec>, existing: seq<ServicePort>, merged: seq<ServicePort>) {
    AllServed(existing, Exported(containers), merged)
  }

  lemma ServedSnoc(existing: seq<ServicePort>, wanted: seq<Port>, merged: seq<ServicePort>, w: Port, m: ServicePort)
    requires AllServed(existing, wanted, merged) && Serves(existing, w, m)
    ensures AllServed(existing, wanted + [w], merged + [m])
  {
    forall i | 0 <= i < |wanted + [w]| ensures Serves(existing, (wanted + [w])[i], (merged + [m])[i]) {
      if i < |wanted| { assert Serves(existing, wanted[i], merged[i]); }
    }
  }

  lemma ExportedNext(before: seq<Port>, origin: seq<Port>, j: nat)
    requires j < |origin|
    ensures before + ExportedPorts(origin[..j + 1]) ==
            before + ExportedPorts(origin[..j]) + if origin[j].exported then [origin[j]] else []
  {
    assert origin[..j + 1][..j] == origin[..j];
  }

  class Service {
    var ports: seq<ServicePort>
    var round: int

    constructor (ports: seq<ServicePort>, round: int)
      ensures this.ports == ports && this.round == round
    {
      this.ports, this.round := ports, round;
    }

    /** `searchInSvcPorts`. */
    method Search(p: ContainerPort) returns (found: Option<ServicePort>)
      ensures found.Some? ==> exists j: nat :: IsFirstNamed(ports, p.name, j) && found.value == ports[j]
      ensures found.None? ==> forall i | 0 <= i < |ports| :: ports[i].name != p.name
    {
      for i := 0 to |ports|
        invariant forall j | 0 <= j < i :: ports[j].name != p.name
      {
        if ports[i].name == p.name {
          assert IsFirstNamed(ports, p.name, i);
          return Some(ports[i]);
        }
      }
      return None;
    }

    /** The inner loop: what one container adds. */
    method MergeContainer(origin: seq<Port>, ghost before: seq<Port>, soFar: seq<ServicePort>)
      returns (newPorts: seq<ServicePort>)
      requires AllServed(ports, before, soFar)
      ensures AllServed(ports, before + ExportedPorts(origin), newPorts)
    {
      newPorts := soFar;
      assert before + ExportedPorts(origin[..0]) == before;
      for j := 0 to |origin|
        invariant AllServed(ports, before + ExportedPorts(origin[..j]), newPorts)
      {
        ghost var done := before + ExportedPorts(origin[..j]);
        ExportedNext(before, origin, j);
        if origin[j].exported {
          var port := Place(origin[j]);
          ServedSnoc(ports, done, newPorts, origin[j], port);
          newPorts := newPorts + [port];
        }
      }
      assert origin[..|origin|] == origin;
    }

    method Place(wanted: Port) returns (port: ServicePort)
      ensures Serves(ports, wanted, port)
    {
      var found := Search(BuildContainerPort(wanted));
      port := match found
        case Some(p) => p
        case None => NewServicePort(BuildContainerPort(wanted));
    }

    /** The port part of `createOrUpdateService`. */
    method MergePorts(containers: seq<ContainerSpec>, currentRound: int)
      modifies this
      ensures IsMerge(containers, old(ports), ports)
      ensures round == currentRound
    {
      var newPorts := [];
      for i := 0 to |containers|
        invariant ports == old(ports)
        invariant AllServed(ports, Exported(containers[..i]), newPorts)
      {
        assert containers[..i + 1][..i] == containers[..i];
        newPorts := MergeContainer(containers[i].ports, Exported(containers[..i]), newPorts);
      }
      assert containers[..|containers|] == containers;
      ports := newPorts;
      round := currentRound;
    }
  }

  predicate ValidPorts(containers: seq<ContainerSpec>) {
    forall i | 0 <= i < |Exported(containers)| :: ValidProtocol(Exported(containers)[i])
  }

  /** A merged port always carries the name it was merged for. */
  lemma MergedName(existing: seq<ServicePort>, wanted: Port, result: ServicePort)
    requires Serves(existing, wanted, result)
    ensures result.name == BuildContainerPort(wanted).name
  {
  }

  /** The merge has one result. */
  lemma MergeUnique(containers: seq<ContainerSpec>, existing: seq<ServicePort>,
                    m: seq<ServicePort>, n: seq<ServicePort>)
    requires IsMerge(containers, existing, m) && IsMerge(containers, existing, n)
    ensures m == n
  {
    forall i | 0 <= i < |m| ensures m[i] == n[i] {
      var wanted := Exported(containers)[i];
      assert Serves(existing, wanted, m[i]) && Serves(existing, wanted, n[i]);
      FirstUnique(existing, BuildContainerPort(wanted).name);
    }
  }

  lemma FirstUnique(ports: seq<ServicePort>, name: string)
    ensures forall i: nat, j: nat :: IsFirstNamed(ports, name, i) && IsFirstNamed(ports, name, j) ==> i == j
  {
  }

  /** Ports merged under one name are one port: the name fixes the protocol and the number. */
  lemma SameNameSamePort(existing: seq<ServicePort>, p: Port, q: Port, m: ServicePort, n: ServicePort)
    requires ValidProtocol(p) && ValidProtocol(q)
    requires BuildContainerPort(p).name == BuildContainerPort(q).name
    requires Serves(existing, p, m) && Serves(existing, q, n)
    ensures m == n
  {
    NameDeterminesPort(p, q);
    FirstUnique(existing, BuildContainerPort(p).name);
  }

  /** Merging again changes nothing. */
  lemma MergeIdempotent(containers: seq<ContainerSpec>, existing: seq<ServicePort>,
                        merged: seq<ServicePort>, again: seq<ServicePort>)
    requires ValidPorts(containers)
    requires IsMerge(containers, existing, merged) && IsMerge(containers, merged, again)
    ensures again == merged
  {
    var wanted := Exported(containers);
    forall i | 0 <= i < |wanted| ensures again[i] == merged[i] {
      assert Serves(existing, wanted[i], merged[i]) && Serves(merged, wanted[i], again[i]);
      MergedName(existing, wanted[i], merged[i]);
      var j: nat :| IsFirstNamed(merged, BuildContainerPort(wanted[i]).name, j) && again[i] == merged[j];
      assert Serves(existing, wanted[j], merged[j]);
      MergedName(existing, wanted[j], merged[j]);
      SameNameSamePort(existing, wanted[i], wanted[j], merged[i], merged[j]);
    }
  }
}
