/** getNodeWithZone of pkg/mutation/mutation_pod.go: nodes grouped by zone and written as one string. */
module NodeZones {
  import opened Prelude
  import opened Strings

  /** A node's name and its zone label, empty when unlabelled. */
  datatype Node = Node(name: string, zone: string)

  type Groups = map<string, seq<string>>

  function NamesIn(nodes: seq<Node>, zone: string): seq<string> {
    if nodes == [] then []
    else
      var last := nodes[|nodes| - 1];
      NamesIn(nodes[..|nodes| - 1], zone) + if last.zone == zone then [last.name] else []
  }

  function Zones(nodes: seq<Node>): set<string> {
    set n | n in nodes && n.zone != "" :: n.zone
  }

  function GroupByZone(nodes: seq<Node>): Groups {
    map z | z in Zones(nodes) :: NamesIn(nodes, z)
  }

  function EncodeZone(zone: string, names: seq<string>): string {
    zone + ":" + Join(names, ',')
  }

  function EncodedZones(groups: Groups, order: seq<string>): (parts: seq<string>)
    requires forall z :: z in order ==> z in groups
    ensures |parts| == |order|
    ensures forall i :: 0 <= i < |order| ==> parts[i] == EncodeZone(order[i], groups[order[i]])
  {
    if order == [] then []
    else
      var n := |order| - 1;
      EncodedZones(groups, order[..n]) + [EncodeZone(order[n], groups[order[n]])]
  }

  /** The string for one walk over the groups. */
  function Encode(groups: Groups, order: seq<string>): string
    requires forall z :: z in order ==> z in groups
  {
    Join(EncodedZones(groups, order), ';')
  }

  // ----- the routine -----

  /** The zone string of a cluster; a failed node list gives the empty string. */
  method GetNodeWithZone(nodes: Option<seq<Node>>) returns (zones: string)
    ensures nodes.None? ==> zones == ""
    ensures nodes.Some? ==> var groups := GroupByZone(nodes.value);
              exists order :: Enumerates(order, groups.Keys) && zones == Encode(groups, order)
  {
    if nodes.None? {
      return "";
    }
    var zoneMap := GroupNodes(nodes.value);
    var zoneList: seq<string> := [];
    var todo := zoneMap.Keys;
    ghost var order: seq<string> := [];
    while todo != {}
      invariant todo <= zoneMap.Keys && Enumerates(order, zoneMap.Keys - todo)
      invariant zoneList == EncodedZones(zoneMap, order)
      decreases |todo|
    {
      var zone :| zone in todo;
      assert (order + [zone])[..|order|] == order;
      zoneList := zoneList + [zone + ":" + Join(zoneMap[zone], ',')];
      order := order + [zone];
      todo := todo - {zone};
    }
    zones := Join(zoneList, ';');
    assert Enumerates(order, zoneMap.Keys) && zones == Encode(zoneMap, order);
  }

  method GroupNodes(nodes: seq<Node>) returns (zoneMap: Groups)
    ensures zoneMap == GroupByZone(nodes)
  {
    zoneMap := map[];
    var i := 0;
    while i < |nodes|
      invariant 0 <= i <= |nodes|
      invariant zoneMap == GroupByZone(nodes[..i])
    {
      var node := nodes[i];
      assert nodes[..i + 1] == nodes[..i] + [node];
      GroupGrows(nodes[..i], node);
      if node.zone != "" {
        zoneMap := zoneMap[node.zone := (if node.zone in zoneMap then zoneMap[node.zone] else []) + [node.name]];
      }
      i := i + 1;
    }
    assert nodes[..i] == nodes;
  }

  lemma GroupGrows(nodes: seq<Node>, node: Node)
    ensures var groups := GroupByZone(nodes);
      GroupByZone(nodes + [node]) ==
      if node.zone == "" then groups
      else groups[node.zone := (if node.zone in groups then groups[node.zone] else []) + [node.name]]
  {
    var groups, longer := GroupByZone(nodes), GroupByZone(nodes + [node]);
    ZonesGrow(nodes, node);
    assert "" !in longer;
    forall z | z in longer
      ensures z != node.zone ==> z in groups && longer[z] == groups[z]
      ensures z == node.zone ==> longer[z] == (if z in groups then groups[z] else []) + [node.name]
    {
      NamesGrow(nodes, node, z);
    }
  }

  lemma NamesGrow(nodes: seq<Node>, node: Node, zone: string)
    ensures NamesIn(nodes + [node], zone) == NamesIn(nodes, zone) + if node.zone == zone then [node.name] else []
    ensures zone !in Zones(nodes) && zone != "" ==> NamesIn(nodes, zone) == []
  {
    assert (nodes + [node])[..|nodes|] == nodes;
    if zone !in Zones(nodes) && zone != "" {
      NoNamesOutside(nodes, zone);
    }
  }

  lemma ZonesGrow(nodes: seq<Node>, node: Node)
    ensures Zones(nodes + [node]) == Zones(nodes) + if node.zone == "" then {} else {node.zone}
  {
    assert forall n :: n in nodes + [node] <==> n in nodes || n == node;
  }

  lemma {:induction false} NoNamesOutside(nodes: seq<Node>, zone: string)
    requires zone !in Zones(nodes) && zone != ""
    ensures NamesIn(nodes, zone) == []
  {
    if nodes != [] {
      var front := nodes[..|nodes| - 1];
      assert forall n :: n in front ==> n in nodes;
      assert nodes[|nodes| - 1] in nodes;
      NoNamesOutside(nodes[..|nodes| - 1], zone);
    }
  }

  // ----- the grouping -----

  /** The positions of a zone's nodes. */
  function ZoneIndices(nodes: seq<Node>, zone: string): (at: seq<nat>)
    ensures forall j :: 0 <= j < |at| ==> at[j] < |nodes| && nodes[at[j]].zone == zone
    ensures forall j, k :: 0 <= j < k < |at| ==> at[j] < at[k]
    ensures forall i :: 0 <= i < |nodes| && nodes[i].zone == zone ==> i in at
  {
    if nodes == [] then []
    else
      var n := |nodes| - 1;
      var front := ZoneIndices(nodes[..n], zone);
      assert forall i :: 0 <= i < n ==> nodes[..n][i] == nodes[i];
      if nodes[n].zone == zone then front + [n] else front
  }

  lemma {:induction false} NamesFollowNodes(nodes: seq<Node>, zone: string)
    ensures |NamesIn(nodes, zone)| == |ZoneIndices(nodes, zone)|
    ensures forall j :: 0 <= j < |NamesIn(nodes, zone)| ==>
              NamesIn(nodes, zone)[j] == nodes[ZoneIndices(nodes, zone)[j]].name
  {
    if nodes != [] {
      NamesFollowNodes(nodes[..|nodes| - 1], zone);
    }
  }

  /** Each node with a zone lands in its zone's group and in no other, once, and groups keep the list order. */
  lemma GroupsPartitionNodes(nodes: seq<Node>, i: nat, zone: string)
    requires i < |nodes| && nodes[i].zone != ""
    ensures nodes[i].zone in GroupByZone(nodes)
    ensures zone in GroupByZone(nodes) ==>
              var at := ZoneIndices(nodes, zone);
              && |GroupByZone(nodes)[zone]| == |at|
              && (forall j :: 0 <= j < |at| ==> GroupByZone(nodes)[zone][j] == nodes[at[j]].name)
              && (forall j, k :: 0 <= j < k < |at| ==> at[j] < at[k])
              && (i in at <==> nodes[i].zone == zone)
  {
    assert nodes[i] in nodes;
    NamesFollowNodes(nodes, zone);
  }

  // ----- the encoding -----

  function DecodeZone(part: string): (string, seq<string>) {
    var halves := Split(part, ':');
    (halves[0], if |halves| > 1 then Split(halves[1], ',') else [])
  }

  function DecodeParts(parts: seq<string>): Groups {
    if parts == [] then map[]
    else
      var n := |parts| - 1;
      var (zone, names) := DecodeZone(parts[n]);
      DecodeParts(parts[..n])[zone := names]
  }

  function Decode(s: string): Groups {
    if s == "" then map[] else DecodeParts(Split(s, ';'))
  }

  predicate Plain(s: string) {
    ':' !in s && ',' !in s && ';' !in s
  }

  /** No separators in zones or names; Kubernetes allows them in neither. */
  predicate Clean(groups: Groups) {
    forall z :: z in groups ==> Plain(z) && groups[z] != [] && forall n :: n in groups[z] ==> Plain(n)
  }

  lemma DecodeUndoesEncodeZone(zone: string, names: seq<string>)
    requires Plain(zone) && names != [] && forall n :: n in names ==> Plain(n)
    ensures DecodeZone(EncodeZone(zone, names)) == (zone, names)
    ensures ';' !in EncodeZone(zone, names)
  {
    JoinAvoids(names, ',', ':');
    JoinAvoids(names, ',', ';');
    SplitPrefix(zone, Join(names, ','), ':');
    SplitPrefix(Join(names, ','), "", ':');
    SplitUndoesJoin(names, ',');
    assert EncodeZone(zone, names) == zone + [':'] + Join(names, ',');
  }

  /** Decoding undoes encoding, whatever the walk. */
  lemma DecodeUndoesEncode(groups: Groups, order: seq<string>)
    requires Clean(groups) && Enumerates(order, groups.Keys)
    ensures Decode(Encode(groups, order)) == groups
  {
    var parts := EncodedZones(groups, order);
    forall i | 0 <= i < |order| ensures DecodeZone(parts[i]) == (order[i], groups[order[i]]) && ';' !in parts[i] {
      assert order[i] in order;
      DecodeUndoesEncodeZone(order[i], groups[order[i]]);
    }
    forall z ensures z in DecodeParts(parts) <==> z in groups
             ensures z in DecodeParts(parts) ==> DecodeParts(parts)[z] == groups[z] {
      DecodePartsCollects(groups, order, parts, z);
    }
    if order != [] {
      SplitUndoesJoin(parts, ';');
      assert EncodeZone(order[0], groups[order[0]])[|order[0]|] == ':';
      assert Encode(groups, order) != "";
    }
  }

  lemma {:induction false} DecodePartsCollects(groups: Groups, order: seq<string>, parts: seq<string>, z: string)
    requires |parts| == |order| && forall z :: z in order ==> z in groups
    requires forall i :: 0 <= i < |order| ==> DecodeZone(parts[i]) == (order[i], groups[order[i]])
    ensures z in DecodeParts(parts) <==> z in order
    ensures z in DecodeParts(parts) ==> DecodeParts(parts)[z] == groups[z]
  {
    if order != [] {
      var n := |order| - 1;
      assert z in order <==> z in order[..n] || z == order[n];
      DecodePartsCollects(groups, order[..n], parts[..n], z);
    }
  }

  /** Two clusters that give the same zone string, in whatever walks, have the same grouping. */
  lemma ZoneStringDeterminesGrouping(a: seq<Node>, b: seq<Node>, o: seq<string>, p: seq<string>)
    requires Enumerates(o, GroupByZone(a).Keys) && Enumerates(p, GroupByZone(b).Keys)
    requires forall n :: n in a + b ==> Plain(n.name) && Plain(n.zone)
    requires Encode(GroupByZone(a), o) == Encode(GroupByZone(b), p)
    ensures GroupByZone(a) == GroupByZone(b)
  {
    GroupsAreClean(a);
    GroupsAreClean(b);
    DecodeUndoesEncode(GroupByZone(a), o);
    DecodeUndoesEncode(GroupByZone(b), p);
  }

  lemma GroupsAreClean(nodes: seq<Node>)
    requires forall n :: n in nodes ==> Plain(n.name) && Plain(n.zone)
    ensures Clean(GroupByZone(nodes))
  {
    forall z | z in GroupByZone(nodes)
      ensures GroupByZone(nodes)[z] != [] && forall n :: n in GroupByZone(nodes)[z] ==> Plain(n)
    {
      var node :| node in nodes && node.zone == z;
      var i :| 0 <= i < |nodes| && nodes[i] == node;
      NamesFollowNodes(nodes, z);
      assert i in ZoneIndices(nodes, z);
      NamesArePlain(nodes, z);
    }
  }

  lemma {:induction false} NamesArePlain(nodes: seq<Node>, zone: string)
    requires forall n :: n in nodes ==> Plain(n.name)
    ensures forall n :: n in NamesIn(nodes, zone) ==> Plain(n)
  {
    if nodes != [] {
      NamesArePlain(nodes[..|nodes| - 1], zone);
      assert nodes[|nodes| - 1] in nodes;
    }
  }

  /** The text itself: a zone, a colon, its nodes with commas, and semicolons between zones. */
  lemma TwoZonesText(groups: Groups, x: string, y: string, a: string, b: string, c: string)
    requires x in groups && y in groups && groups[x] == [a, b] && groups[y] == [c]
    ensures Encode(groups, [x, y]) == x + ":" + a + "," + b + ";" + y + ":" + c
  {
    var parts := EncodedZones(groups, [x, y]);
    assert parts == [EncodeZone(x, [a, b]), EncodeZone(y, [c])];
    assert [a, b][1..] == [b] && parts[1..] == [EncodeZone(y, [c])];
    assert Join([a, b], ',') == a + [','] + b;
    assert Join(parts, ';') == EncodeZone(x, [a, b]) + [';'] + EncodeZone(y, [c]);
  }
}
