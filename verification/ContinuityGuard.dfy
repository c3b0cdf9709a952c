/** The crash-safe guard that ties a state directory to one network
    (infra/docker/qualification_network.py). SHA-256 is a parameter `hash`. */
module ContinuityGuard {
  import opened LlmTypes
  import opened Subnets
  import opened FlatJson

  // ------------------------------------------------------------------- texts

  type Digest = s: string | |s| == 64 && AllPlain(s) witness seq(64, _ => '0')

  function Decimal(n: nat): (s: Plain)
    ensures s != [] && |s| <= n + 1
  {
    var digit := ['0' + (n % 10) as char];
    if n < 10 then digit else Decimal(n / 10) + digit
  }

  /** The library's spelling of a block. */
  function Dotted(v: Network): (s: Plain)
    requires v.V4?
  {
    var a := v.address;
    Decimal(a / 0x100_0000) + "." + Decimal(a / 0x1_0000 % 256) + "." + Decimal(a / 256 % 256) + "." + Decimal(a % 256)
    + "/" + Decimal(v.prefix)
  }

  function OverlayBytes(v: Network): string
    requires v.V4?
  {
    "networks:\n  novel-net:\n    ipam:\n      config:\n        - subnet: " + Dotted(v) + "\n"
  }

  predicate Hex(s: string) {
    forall c <- s :: '0' <= c <= '9' || 'a' <= c <= 'f'
  }

  predicate ProjectName(p: string) {
    (|p| == 14 || |p| == 36) && p[..4] == "nwq-" && Hex(p[4..])
  }

  lemma ProjectIsPlain(p: string)
    requires ProjectName(p)
    ensures AllPlain(p)
  {
    assert p == "nwq-" + p[4..];
  }

  const OVERLAY_SHA256: Plain := "overlay_sha256"
  const PROJECT: Plain := "project"
  const SUBNET: Plain := "subnet"
  const ID: Plain := "id"
  const NAME: Plain := "name"
  const NETWORK_SUFFIX: Plain := "_novel-net"

  function NetworkName(project: Plain): Plain {
    project + NETWORK_SUFFIX
  }

  function AttemptFields(hash: string -> Digest, project: Plain, v: Network): (f: seq<Field>)
    requires v.V4?
  {
    [(OVERLAY_SHA256, hash(OverlayBytes(v))), (PROJECT, project), (SUBNET, Dotted(v))]
  }

  function AttemptBytes(hash: string -> Digest, project: Plain, v: Network): string
    requires v.V4?
  {
    Encode(AttemptFields(hash, project, v), ", ", ": ")
  }

  datatype Identity = Identity(id: Plain, name: Plain, overlay: Plain, subnet: Plain)

  function ReceiptFields(i: Identity): seq<Field> {
    [(ID, i.id), (NAME, i.name), (OVERLAY_SHA256, i.overlay), (SUBNET, i.subnet)]
  }

  function ReceiptBytes(i: Identity): string {
    Encode(ReceiptFields(i), ",", ":")
  }

  // ----------------------------------------------------------- owned network

  predicate Labelled(n: DockerNetwork, key: string, value: string) {
    key in n.labels && n.labels[key] == value
  }

  predicate OfProject(n: DockerNetwork, project: string) {
    n.name == project + NETWORK_SUFFIX || Labelled(n, "com.docker.compose.project", project)
  }

  function Mine(networks: seq<DockerNetwork>, project: string): (m: seq<DockerNetwork>)
    ensures forall n :: n in m <==> n in networks && OfProject(n, project)
  {
    if networks == [] then []
    else (if OfProject(networks[0], project) then [networks[0]] else []) + Mine(networks[1..], project)
  }

  predicate WellMade(n: DockerNetwork, project: string, v: Network) {
    && |n.id| == 64 && Hex(n.id)
    && n.name == project + NETWORK_SUFFIX && n.driver == "bridge" && n.scope == "local"
    && !n.isInternal && !n.ipv6
    && Labelled(n, "com.docker.compose.project", project)
    && Labelled(n, "com.docker.compose.network", "novel-net")
    && ("com.docker.network.bridge.name" in n.options ==> n.options["com.docker.network.bridge.name"] == "")
    && n.ipam.Config? && n.ipam.allocations == [Subnet(v)]
  }

  /** Network `i` is well made and the project has no other. */
  predicate OnlyNetwork(networks: seq<DockerNetwork>, project: Plain, v: Network, i: nat)
    requires i < |networks|
  {
    WellMade(networks[i], project, v) && forall k :: 0 <= k < |networks| && k != i ==> !OfProject(networks[k], project)
  }

  /** The index of the project's single network. */
  predicate Single(networks: seq<DockerNetwork>, project: Plain, i: nat) {
    i < |networks| && forall k :: 0 <= k < |networks| ==> (OfProject(networks[k], project) <==> k == i)
  }

  lemma {:induction false} NoneMine(networks: seq<DockerNetwork>, project: Plain)
    requires forall k :: 0 <= k < |networks| ==> !OfProject(networks[k], project)
    ensures Mine(networks, project) == []
  {
    hide OfProject;
    if networks != [] { NoneMine(networks[1..], project); }
  }

  lemma {:induction false} SingleIsMine(networks: seq<DockerNetwork>, project: Plain, i: nat)
    requires Single(networks, project, i)
    ensures Mine(networks, project) == [networks[i]]
  {
    hide OfProject;
    var rest := networks[1..];
    assert forall k :: 0 <= k < |rest| ==> rest[k] == networks[k + 1];
    if i == 0 {
      NoneMine(rest, project);
    } else {
      SingleIsMine(rest, project, i - 1);
    }
  }

  lemma {:induction false} MineIsSingle(networks: seq<DockerNetwork>, project: Plain) returns (i: nat)
    requires |Mine(networks, project)| == 1
    ensures Single(networks, project, i)
  {
    hide OfProject;
    var rest := networks[1..];
    assert forall k :: 0 < k < |networks| ==> networks[k] == rest[k - 1];
    if OfProject(networks[0], project) {
      assert Mine(rest, project) == [];
      assert forall k :: 0 <= k < |rest| ==> rest[k] !in Mine(rest, project);
      i := 0;
    } else {
      var j := MineIsSingle(rest, project);
      i := j + 1;
    }
  }

  lemma MineIsOne(networks: seq<DockerNetwork>, project: Plain, v: Network)
    ensures |Mine(networks, project)| == 1 && WellMade(Mine(networks, project)[0], project, v) <==>
            exists i :: 0 <= i < |networks| && OnlyNetwork(networks, project, v, i)
    ensures forall i :: 0 <= i < |networks| && OnlyNetwork(networks, project, v, i) ==>
            Mine(networks, project) == [networks[i]]
  {
    forall i | 0 <= i < |networks| && OnlyNetwork(networks, project, v, i)
      ensures Mine(networks, project) == [networks[i]]
    {
      WellMadeIsOurs(networks[i], project, v);
      SingleIsMine(networks, project, i);
    }
    if |Mine(networks, project)| == 1 && WellMade(Mine(networks, project)[0], project, v) {
      var i := MineIsSingle(networks, project);
      SingleIsMine(networks, project, i);
      assert OnlyNetwork(networks, project, v, i);
    }
  }

  lemma WellMadeIsOurs(n: DockerNetwork, project: Plain, v: Network)
    ensures WellMade(n, project, v) ==> OfProject(n, project)
  {
  }

  /** The identity of the project's network: there is one exactly when a single
      network is the project's and it is well made. */
  function OwnedNetwork(hash: string -> Digest, networks: seq<DockerNetwork>, project: Plain,
                        v: Network): (o: Option<Identity>)
    requires v.V4?
    ensures o.Some? <==> exists i :: 0 <= i < |networks| && OnlyNetwork(networks, project, v, i)
    ensures forall i :: 0 <= i < |networks| && OnlyNetwork(networks, project, v, i) ==>
              o == Some(Identity(networks[i].id, NetworkName(project), hash(OverlayBytes(v)), Dotted(v)))
  {
    MineIsOne(networks, project, v);
    var m := Mine(networks, project);
    if |m| != 1 || !WellMade(m[0], project, v) then None
    else Some(Identity(m[0].id, NetworkName(project), hash(OverlayBytes(v)), Dotted(v)))
  }

  // ------------------------------------------------------------------- files

  datatype Name = Overlay | Receipt | Attempt

  /** `safe`: a regular file of the caller with mode 0600. */
  datatype Entry = Entry(safe: bool, data: string)

  type Dir = map<Name, Entry>

  const FILE_LIMIT: nat := 4096

  predicate PrivateFile(d: Dir, name: Name) {
    name in d && d[name].safe && |d[name].data| <= FILE_LIMIT
  }

  predicate Matches(d: Dir, name: Name, data: string) {
    PrivateFile(d, name) && d[name].data == data
  }

  /** A crash during a write leaves no file, or one with the first `kept` bytes. */
  datatype Fault = NoFault | Crash(kept: Option<nat>)

  function Written(d: Dir, name: Name, data: string, fault: Fault): Dir {
    if name in d then d
    else if fault.NoFault? then d[name := Entry(true, data)]
    else if fault.kept.None? then d
    else d[name := Entry(true, if fault.kept.value < |data| then data[..fault.kept.value] else data)]
  }

  // ------------------------------------------------------------------- calls

  datatype Action = WriteOverlay | Check | Before | After | Unknown

  datatype Inventory = Inventory(networks: seq<DockerNetwork>, routes: seq<Route>)

  /** One invocation: its arguments, what the machine's inventory shows (None
      when it cannot be read) and where it crashes. */
  datatype Call = Call(action: Action, value: Network, project: string, inventory: Option<Inventory>, fault: Fault)

  /** What a call makes of the files and the inventory it reads. */
  datatype Plan = Refuse | Pass(seen: Option<Identity>) | Write(name: Name, data: string, seen: Option<Identity>)

  predicate Arguments(c: Call) {
    ValidSubnet(c.value) && ProjectName(c.project) && !c.action.Unknown?
  }

  function AttemptOf(hash: string -> Digest, c: Call): string
    requires Arguments(c)
  {
    ProjectIsPlain(c.project);
    AttemptBytes(hash, c.project, c.value)
  }

  function Observed(hash: string -> Digest, c: Call): Option<Identity>
    requires Arguments(c) && c.inventory.Some?
  {
    ProjectIsPlain(c.project);
    OwnedNetwork(hash, c.inventory.value.networks, c.project, c.value)
  }

  predicate FilesAgree(hash: string -> Digest, d: Dir, c: Call)
    requires Arguments(c)
  {
    && (Overlay in d ==> Matches(d, Overlay, OverlayBytes(c.value)))
    && (Attempt in d ==> Matches(d, Attempt, AttemptOf(hash, c)))
  }

  ghost predicate Fits(c: Call, owned: Option<string>)
    requires c.inventory.Some?
  {
    Admits(c.value, c.inventory.value.networks, c.inventory.value.routes, owned)
  }

  predicate Ready(hash: string -> Digest, d: Dir, c: Call) {
    Arguments(c) && !c.action.WriteOverlay? && c.inventory.Some? && FilesAgree(hash, d, c)
  }

  /** With a receipt, the network must still be the one it names. */
  ghost function DecideKnown(hash: string -> Digest, d: Dir, c: Call): Plan
    requires Ready(hash, d, c) && Receipt in d
  {
    var o := Observed(hash, c);
    if Attempt in d && PrivateFile(d, Receipt) && o.Some?
       && Decode(d[Receipt].data) == Some(MapOf(ReceiptFields(o.value))) && Fits(c, Some(o.value.id))
    then Pass(o) else Refuse
  }

  /** The first look at the network after the attempt makes the receipt. */
  ghost function DecideFirst(hash: string -> Digest, d: Dir, c: Call): Plan
    requires Ready(hash, d, c)
  {
    var o := Observed(hash, c);
    if Attempt in d && o.Some? && Fits(c, Some(o.value.id)) then Write(Receipt, ReceiptBytes(o.value), o) else Refuse
  }

  /** Before any attempt, the project must own nothing and the block be free. */
  ghost function DecideFresh(hash: string -> Digest, d: Dir, c: Call): Plan
    requires Ready(hash, d, c)
  {
    if Attempt in d || Mine(c.inventory.value.networks, c.project) != [] || !Fits(c, None) then Refuse
    else if c.action.Before? then Write(Attempt, AttemptOf(hash, c), None)
    else Pass(None)
  }

  ghost function Decide(hash: string -> Digest, d: Dir, c: Call): Plan {
    if !Arguments(c) then Refuse
    else if c.action.WriteOverlay? then Write(Overlay, OverlayBytes(c.value), None)
    else if !Ready(hash, d, c) then Refuse
    else if Receipt in d then DecideKnown(hash, d, c)
    else if c.action.After? then DecideFirst(hash, d, c)
    else DecideFresh(hash, d, c)
  }

  ghost function Effect(d: Dir, p: Plan, fault: Fault): Dir {
    if p.Write? then Written(d, p.name, p.data, fault) else d
  }

  ghost predicate Succeeds(d: Dir, p: Plan, fault: Fault) {
    fault.NoFault? && !p.Refuse? && (p.Write? && p.name in d ==> Matches(d, p.name, p.data))
  }

  class StateDirectory {
    var files: Dir

    constructor ()
      ensures files == map[]
    {
      files := map[];
    }

    /** Never overwrites: an existing file must already hold the bytes. */
    method WriteOnce(name: Name, data: string, fault: Fault) returns (ok: bool)
      modifies this
      ensures files == Written(old(files), name, data, fault)
      ensures ok <==> fault.NoFault? && (name in old(files) ==> Matches(old(files), name, data))
      ensures name in old(files) ==> files == old(files)
    {
      if name in files {
        return Matches(files, name, data) && fault.NoFault?;
      }
      match fault
      case NoFault =>
        files := files[name := Entry(true, data)];
        return true;
      case Crash(kept) =>
        if kept.Some? {
          files := files[name := Entry(true, if kept.value < |data| then data[..kept.value] else data)];
        }
        return false;
    }

    method Confirm(hash: string -> Digest, c: Call) returns (ok: bool, seen: Option<Identity>)
      requires Ready(hash, files, c) && Receipt in files
      ensures var p := DecideKnown(hash, files, c);
        && !p.Write?
        && (ok <==> Succeeds(files, p, c.fault))
        && (ok ==> seen == p.seen)
    {
      hide Admits, ValidSubnet, ProjectName, Decode, MapOf, ReceiptFields, Observed, AttemptOf, OverlayBytes,
           FilesAgree, Mine;
      ok, seen := false, Observed(hash, c);
      if Attempt !in files || !PrivateFile(files, Receipt) || seen.None? { return; }
      if Decode(files[Receipt].data) != Some(MapOf(ReceiptFields(seen.value))) { return; }
      var verdict := Topology(c.value, c.inventory.value.networks, c.inventory.value.routes, Some(seen.value.id));
      ok := verdict.Accepted? && c.fault.NoFault?;
    }

    method Certify(hash: string -> Digest, c: Call) returns (ok: bool, seen: Option<Identity>)
      requires Ready(hash, files, c)
      modifies this
      ensures var p := DecideFirst(hash, old(files), c);
        && files == Effect(old(files), p, c.fault)
        && (ok <==> Succeeds(old(files), p, c.fault))
        && (ok ==> seen == p.seen)
    {
      hide Admits, ValidSubnet, ProjectName, Decode, MapOf, ReceiptFields, Observed, AttemptOf, OverlayBytes,
           FilesAgree, Mine;
      ok, seen := false, Observed(hash, c);
      if Attempt !in files || seen.None? { return; }
      var verdict := Topology(c.value, c.inventory.value.networks, c.inventory.value.routes, Some(seen.value.id));
      if verdict.Accepted? {
        ok := WriteOnce(Receipt, ReceiptBytes(seen.value), c.fault);
      }
    }

    method Announce(hash: string -> Digest, c: Call) returns (ok: bool)
      requires Ready(hash, files, c)
      modifies this
      ensures var p := DecideFresh(hash, old(files), c);
        && files == Effect(old(files), p, c.fault)
        && (ok <==> Succeeds(old(files), p, c.fault))
        && (ok ==> p.seen == None)
    {
      hide Admits, ValidSubnet, ProjectName, Decode, MapOf, ReceiptFields, Observed, AttemptOf, OverlayBytes,
           FilesAgree, Mine;
      ok := false;
      if Attempt in files || Mine(c.inventory.value.networks, c.project) != [] { return; }
      var verdict := Topology(c.value, c.inventory.value.networks, c.inventory.value.routes, None);
      if !verdict.Accepted? { return; }
      ok := c.fault.NoFault?;
      if c.action.Before? {
        ok := WriteOnce(Attempt, AttemptOf(hash, c), c.fault);
      }
    }

    /** One invocation, with its result and the identity it looked at. */
    method Guard(hash: string -> Digest, c: Call) returns (ok: bool, seen: Option<Identity>)
      modifies this
      ensures var p := Decide(hash, old(files), c);
        && files == Effect(old(files), p, c.fault)
        && (ok <==> Succeeds(old(files), p, c.fault))
        && (ok ==> seen == p.seen)
    {
      hide DecideKnown, DecideFirst, DecideFresh, ProjectName, PrivateFile, AttemptOf, OverlayBytes;
      ok, seen := false, None;
      if !ValidSubnet(c.value) || !ProjectName(c.project) || c.action.Unknown? { return; }
      if c.action.WriteOverlay? {
        ok := WriteOnce(Overlay, OverlayBytes(c.value), c.fault);
        return;
      }
      if Overlay in files && !Matches(files, Overlay, OverlayBytes(c.value)) { return; }
      if Attempt in files && !Matches(files, Attempt, AttemptOf(hash, c)) { return; }
      if c.inventory.None? { return; }
      if Receipt in files {
        ok, seen := Confirm(hash, c);
      } else if c.action.After? {
        ok, seen := Certify(hash, c);
      } else {
        ok := Announce(hash, c);
      }
    }
  }

  // -------------------------------------------------------------- whole runs

  /** The directory after a sequence of invocations. */
  ghost function FilesAfter(hash: string -> Digest, d: Dir, calls: seq<Call>): Dir
    decreases |calls|
  {
    if calls == [] then d
    else
      var before := FilesAfter(hash, d, calls[..|calls| - 1]);
      var c := calls[|calls| - 1];
      Effect(before, Decide(hash, before, c), c.fault)
  }

  /** The directory that invocation `i` finds. */
  ghost function Found(hash: string -> Digest, d: Dir, calls: seq<Call>, i: nat): Dir
    requires i <= |calls|
  {
    FilesAfter(hash, d, calls[..i])
  }

  ghost function PlanAt(hash: string -> Digest, d: Dir, calls: seq<Call>, i: nat): Plan
    requires i < |calls|
  {
    Decide(hash, Found(hash, d, calls, i), calls[i])
  }

  ghost predicate DoneAt(hash: string -> Digest, d: Dir, calls: seq<Call>, i: nat)
    requires i < |calls|
  {
    Succeeds(Found(hash, d, calls, i), PlanAt(hash, d, calls, i), calls[i].fault)
  }

  lemma FoundNext(hash: string -> Digest, d: Dir, calls: seq<Call>, i: nat)
    requires i < |calls|
    ensures Found(hash, d, calls, i + 1) == Effect(Found(hash, d, calls, i), PlanAt(hash, d, calls, i), calls[i].fault)
  {
    hide Decide;
    assert calls[..i + 1][..i] == calls[..i];
  }

  /** No file is ever removed or changed, whatever crashes. */
  lemma {:induction false} FilesNeverChange(hash: string -> Digest, d: Dir, calls: seq<Call>, i: nat, j: nat,
                                            name: Name)
    requires i <= j <= |calls| && name in Found(hash, d, calls, i)
    ensures name in Found(hash, d, calls, j) && Found(hash, d, calls, j)[name] == Found(hash, d, calls, i)[name]
    decreases j
  {
    hide Decide, FilesAfter;
    if i < j {
      FilesNeverChange(hash, d, calls, i, j - 1, name);
      FoundNext(hash, d, calls, j - 1);
    }
  }

  /** What a successful write leaves is whole. */
  lemma WholeWrite(hash: string -> Digest, d: Dir, calls: seq<Call>, i: nat)
    requires i < |calls| && DoneAt(hash, d, calls, i) && PlanAt(hash, d, calls, i).Write?
    ensures var p := PlanAt(hash, d, calls, i); var after := Found(hash, d, calls, i + 1);
            p.name in after && after[p.name].data == p.data
  {
    hide Decide, FilesAfter;
    FoundNext(hash, d, calls, i);
  }

  // Inversions of a decision.

  lemma PlanOfGuarded(hash: string -> Digest, d: Dir, c: Call)
    requires !c.action.WriteOverlay? && !Decide(hash, d, c).Refuse?
    ensures Ready(hash, d, c)
    ensures Attempt in d ==> d[Attempt].data == AttemptOf(hash, c)
    ensures var p := Decide(hash, d, c);
      && (Receipt in d ==> p.Pass? && p.seen.Some? && Attempt in d
                           && Decode(d[Receipt].data) == Some(MapOf(ReceiptFields(p.seen.value))))
      && (Receipt !in d && p.seen.Some? ==> Attempt in d && p == Write(Receipt, ReceiptBytes(p.seen.value), p.seen))
      && (Receipt !in d && p.seen.None? && p.Write? ==> Attempt !in d && p == Write(Attempt, AttemptOf(hash, c), None))
      && (Receipt !in d && p.seen.None? && p.Pass? ==> Attempt !in d && c.action.Check?)
      && (p.seen.Some? ==> p.seen == Observed(hash, c) && Fits(c, Some(p.seen.value.id)))
      && (p.seen.None? ==> Mine(c.inventory.value.networks, c.project) == [] && Fits(c, None))
      && (Receipt !in d && c.action.Before? ==> p.Write? && p.name == Attempt)
      && (Receipt !in d && c.action.After? ==> p.seen.Some?)
  {
    hide Admits, Decode, MapOf, ReceiptBytes, AttemptOf, Observed, OverlayBytes, Mine, ValidSubnet, ProjectName,
         PrivateFile;
  }

  /** A `before` that succeeded without a receipt. */
  ghost predicate FreshBefore(hash: string -> Digest, d: Dir, calls: seq<Call>, i: nat)
    requires i < |calls|
  {
    calls[i].action.Before? && DoneAt(hash, d, calls, i) && Receipt !in Found(hash, d, calls, i)
  }

  lemma FreshBeforeAnnounces(hash: string -> Digest, d: Dir, calls: seq<Call>, i: nat)
    requires i < |calls| && FreshBefore(hash, d, calls, i)
    ensures Attempt !in Found(hash, d, calls, i) && Arguments(calls[i])
    ensures var after := Found(hash, d, calls, i + 1);
            Attempt in after && after[Attempt].data == AttemptOf(hash, calls[i])
  {
    PlanOfGuarded(hash, Found(hash, d, calls, i), calls[i]);
    hide Decide, FilesAfter, AttemptOf, Fits;
    WholeWrite(hash, d, calls, i);
  }

  /** One fresh `before` succeeds per state directory, over any arguments,
      inventories and crashes. */
  lemma OneFreshBefore(hash: string -> Digest, d: Dir, calls: seq<Call>, i: nat, j: nat)
    requires i < j < |calls| && FreshBefore(hash, d, calls, i)
    ensures !FreshBefore(hash, d, calls, j)
  {
    hide Found, AttemptOf;
    FreshBeforeAnnounces(hash, d, calls, i);
    FilesNeverChange(hash, d, calls, i + 1, j, Attempt);
    if FreshBefore(hash, d, calls, j) {
      FreshBeforeAnnounces(hash, d, calls, j);
    }
  }

  // ---------------------------------------------------------- one identity

  lemma ReceiptReadsBack(i: Identity)
    ensures Decode(ReceiptBytes(i)) == Some(MapOf(ReceiptFields(i)))
  {
    DecodeEncode(ReceiptFields(i), ",", ":");
  }

  lemma ReceiptMapInjective(i: Identity, k: Identity)
    requires MapOf(ReceiptFields(i)) == MapOf(ReceiptFields(k))
    ensures i == k
  {
    MembersOfReceipt(i);
    MembersOfReceipt(k);
  }

  lemma MembersOfReceipt(i: Identity)
    ensures var m := MapOf(ReceiptFields(i));
      && ID in m && m[ID] == i.id && NAME in m && m[NAME] == i.name
      && OVERLAY_SHA256 in m && m[OVERLAY_SHA256] == i.overlay && SUBNET in m && m[SUBNET] == i.subnet
  {
    NamesApart();
    var f := ReceiptFields(i);
    hide MapOf;
    MapOfAt(f, 0);
    MapOfAt(f, 1);
    MapOfAt(f, 2);
    MapOfAt(f, 3);
  }

  lemma NamesApart()
    ensures ID[0] == 'i' && NAME[0] == 'n' && OVERLAY_SHA256[0] == 'o' && SUBNET[0] == 's' && PROJECT[0] == 'p'
  {
  }

  /** A check, before or after that succeeded and named a network. */
  ghost predicate SawAt(hash: string -> Digest, d: Dir, calls: seq<Call>, i: nat, who: Identity)
    requires i < |calls|
  {
    && !calls[i].action.WriteOverlay? && DoneAt(hash, d, calls, i)
    && PlanAt(hash, d, calls, i).seen == Some(who)
  }

  lemma SawReceipt(hash: string -> Digest, d: Dir, calls: seq<Call>, i: nat, who: Identity)
    requires i < |calls| && SawAt(hash, d, calls, i, who)
    ensures var after := Found(hash, d, calls, i + 1);
            Receipt in after && Decode(after[Receipt].data) == Some(MapOf(ReceiptFields(who)))
  {
    PlanOfGuarded(hash, Found(hash, d, calls, i), calls[i]);
    ReceiptReadsBack(who);
    hide Decide, FilesAfter, Decode, MapOf, ReceiptBytes, ReceiptFields, AttemptOf, Fits, Observed;
    FoundNext(hash, d, calls, i);
    if Receipt in Found(hash, d, calls, i) {
      FilesNeverChange(hash, d, calls, i, i + 1, Receipt);
    } else {
      WholeWrite(hash, d, calls, i);
    }
  }

  /** All successes that name a network name the same one. */
  lemma OneIdentity(hash: string -> Digest, d: Dir, calls: seq<Call>, i: nat, j: nat, first: Identity, later: Identity)
    requires i < j < |calls| && SawAt(hash, d, calls, i, first) && SawAt(hash, d, calls, j, later)
    ensures first == later
  {
    hide Found, Decode, MapOf, ReceiptFields, SawAt, PlanAt, DoneAt;
    SawReceipt(hash, d, calls, i, first);
    SawReceipt(hash, d, calls, j, later);
    FilesNeverChange(hash, d, calls, i + 1, j + 1, Receipt);
    ReceiptMapInjective(first, later);
  }

  /** Once there is a receipt, whole or not, every success names a network. */
  lemma ReceiptForcesIdentity(hash: string -> Digest, d: Dir, calls: seq<Call>, i: nat)
    requires i < |calls| && !calls[i].action.WriteOverlay? && DoneAt(hash, d, calls, i)
    requires Receipt in Found(hash, d, calls, i)
    ensures exists who :: SawAt(hash, d, calls, i, who)
  {
    PlanOfGuarded(hash, Found(hash, d, calls, i), calls[i]);
    assert SawAt(hash, d, calls, i, PlanAt(hash, d, calls, i).seen.value);
  }

  // ------------------------------------------------------------ torn files

  /** Invocation `i` crashed in the middle of a write. */
  ghost predicate Tears(hash: string -> Digest, d: Dir, calls: seq<Call>, i: nat)
    requires i < |calls|
  {
    var p := PlanAt(hash, d, calls, i);
    && p.Write? && p.name !in Found(hash, d, calls, i) && p.name in Found(hash, d, calls, i + 1)
    && |Found(hash, d, calls, i + 1)[p.name].data| < |p.data|
  }

  lemma TornBytes(hash: string -> Digest, d: Dir, calls: seq<Call>, i: nat) returns (kept: nat)
    requires i < |calls| && Tears(hash, d, calls, i)
    ensures var p := PlanAt(hash, d, calls, i);
            kept < |p.data| && Found(hash, d, calls, i + 1)[p.name].data == p.data[..kept]
  {
    hide Decide, FilesAfter;
    FoundNext(hash, d, calls, i);
    kept := |Found(hash, d, calls, i + 1)[PlanAt(hash, d, calls, i).name].data|;
  }

  /** The name of the file and its intended bytes: one of three texts. */
  lemma IntendedBytes(hash: string -> Digest, d: Dir, c: Call)
    requires Decide(hash, d, c).Write?
    ensures Arguments(c)
    ensures var p := Decide(hash, d, c);
      match p.name
      case Overlay => c.action.WriteOverlay? && p.data == OverlayBytes(c.value)
      case Attempt => !c.action.WriteOverlay? && p.data == AttemptOf(hash, c)
      case Receipt => p.seen.Some? && p.data == ReceiptBytes(p.seen.value)
  {
    hide Admits, Decode, MapOf, ReceiptBytes, AttemptOf, Observed, OverlayBytes, Mine, ValidSubnet, ProjectName,
         PrivateFile;
  }

  predicate NoNewline(s: string) {
    '\n' !in s
  }

  /** A torn overlay text is no overlay text of any block. */
  lemma TornOverlay(v: Network, w: Network, kept: nat)
    requires v.V4? && w.V4? && kept < |OverlayBytes(v)|
    ensures OverlayBytes(v)[..kept] != OverlayBytes(w)
  {
    PlainHasNoNewline(Dotted(v));
    OverlayTorn(Dotted(v), Dotted(w), kept);
  }

  lemma PlainHasNoNewline(p: Plain)
    ensures NoNewline(p)
  {
    assert !PlainChar('\n');
  }

  lemma OverlayTorn(v: string, w: string, kept: nat)
    requires NoNewline(v)
    requires kept < |"networks:\n  novel-net:\n    ipam:\n      config:\n        - subnet: "| + |v| + 1
    ensures ("networks:\n  novel-net:\n    ipam:\n      config:\n        - subnet: " + v + "\n")[..kept]
            != "networks:\n  novel-net:\n    ipam:\n      config:\n        - subnet: " + w + "\n"
  {
    var head := "networks:\n  novel-net:\n    ipam:\n      config:\n        - subnet: ";
    Ended(head, v, w, kept);
  }

  lemma Ended(head: string, v: string, w: string, kept: nat)
    requires NoNewline(v) && kept < |head| + |v| + 1
    ensures (head + v + "\n")[..kept] != head + w + "\n"
  {
    var torn, whole := (head + v + "\n")[..kept], head + w + "\n";
    if |torn| == |whole| {
      var last := |head| + |w|;
      assert v[last - |head|] in v;
      assert whole[last] == '\n' && torn[last] == v[last - |head|];
    }
  }

  lemma TornObject(fields: seq<Field>, comma: string, colon: string, others: seq<Field>, c2: string, k2: string,
                   kept: nat)
    requires fields != [] && Separator(comma, ',') && Separator(colon, ':') && kept < |Encode(fields, comma, colon)|
    requires others != [] && Separator(c2, ',') && Separator(k2, ':')
    ensures Encode(fields, comma, colon)[..kept] != Encode(others, c2, k2)
    ensures Decode(Encode(fields, comma, colon)[..kept]).None?
  {
    TornIsNoObject(fields, comma, colon, kept);
    OneBrace(others, c2, k2);
    var s := Encode(others, c2, k2);
    hide Members, Decode;
    assert s[|s| - 1] == '}';
  }

  /** A write of any of the three files that a crash cuts short blocks every
      later check, before and after. */
  lemma TornFileBlocks(hash: string -> Digest, d: Dir, calls: seq<Call>, i: nat, j: nat)
    requires i < j < |calls| && Tears(hash, d, calls, i) && !calls[j].action.WriteOverlay?
    ensures !DoneAt(hash, d, calls, j)
  {
    hide Found, AttemptOf, OverlayBytes, ReceiptBytes, Decode, MapOf, ReceiptFields, Arguments, Decide, Observed, Fits,
         Mine;
    var p := PlanAt(hash, d, calls, i);
    var kept := TornBytes(hash, d, calls, i);
    FilesNeverChange(hash, d, calls, i + 1, j, p.name);
    IntendedBytes(hash, Found(hash, d, calls, i), calls[i]);
    var now, c := Found(hash, d, calls, j), calls[j];
    if !Decide(hash, now, c).Refuse? {
      PlanOfGuarded(hash, now, c);
      TornNeverMatches(hash, calls[i], c, p, kept);
    }
  }

  lemma TornNeverMatches(hash: string -> Digest, writer: Call, reader: Call, p: Plan, kept: nat)
    requires Arguments(writer) && Arguments(reader) && p.Write? && kept < |p.data|
    requires p.name.Overlay? ==> p.data == OverlayBytes(writer.value)
    requires p.name.Attempt? ==> p.data == AttemptOf(hash, writer)
    requires p.name.Receipt? ==> p.seen.Some? && p.data == ReceiptBytes(p.seen.value)
    ensures p.name.Overlay? ==> p.data[..kept] != OverlayBytes(reader.value)
    ensures p.name.Attempt? ==> p.data[..kept] != AttemptOf(hash, reader)
    ensures p.name.Receipt? ==> Decode(p.data[..kept]).None?
  {
    match p.name
    case Overlay => TornOverlay(writer.value, reader.value, kept);
    case Attempt =>
      ProjectIsPlain(writer.project);
      ProjectIsPlain(reader.project);
      TornObject(AttemptFields(hash, writer.project, writer.value), ", ", ": ",
                 AttemptFields(hash, reader.project, reader.value), ", ", ": ", kept);
    case Receipt =>
      TornIsNoObject(ReceiptFields(p.seen.value), ",", ":", kept);
  }

  // ------------------------------------------------- the attempt pins the run

  lemma MembersOfAttempt(hash: string -> Digest, project: Plain, v: Network)
    requires v.V4?
    ensures var m := MapOf(AttemptFields(hash, project, v));
      PROJECT in m && m[PROJECT] == project && SUBNET in m && m[SUBNET] == Dotted(v)
  {
    hide OverlayBytes, Dotted;
    NamesApart();
    var f := AttemptFields(hash, project, v);
    hide MapOf;
    MapOfAt(f, 1);
    MapOfAt(f, 2);
  }

  /** The attempt text determines the project and the subnet. */
  lemma AttemptInjective(hash: string -> Digest, p: Plain, q: Plain, v: Network, w: Network)
    requires v.V4? && w.V4? && AttemptBytes(hash, p, v) == AttemptBytes(hash, q, w)
    ensures p == q && Dotted(v) == Dotted(w)
  {
    DecodeEncode(AttemptFields(hash, p, v), ", ", ": ");
    DecodeEncode(AttemptFields(hash, q, w), ", ", ": ");
    hide Decode, Encode, Dotted, OverlayBytes;
    MembersOfAttempt(hash, p, v);
    MembersOfAttempt(hash, q, w);
    hide MapOf, AttemptFields;
    var m, n := MapOf(AttemptFields(hash, p, v)), MapOf(AttemptFields(hash, q, w));
    assert m[PROJECT] == n[PROJECT] && m[SUBNET] == n[SUBNET];
  }

  /** After a fresh `before`, only its own project and subnet can succeed. */
  lemma AttemptPins(hash: string -> Digest, d: Dir, calls: seq<Call>, i: nat, j: nat)
    requires i < j < |calls| && FreshBefore(hash, d, calls, i)
    requires !calls[j].action.WriteOverlay? && DoneAt(hash, d, calls, j)
    ensures calls[i].value.V4? && calls[j].value.V4?
    ensures calls[j].project == calls[i].project && Dotted(calls[j].value) == Dotted(calls[i].value)
  {
    FreshBeforeAnnounces(hash, d, calls, i);
    FilesNeverChange(hash, d, calls, i + 1, j, Attempt);
    PlanOfGuarded(hash, Found(hash, d, calls, j), calls[j]);
    hide Found, Decide, AttemptOf, Dotted, OverlayBytes;
    SameArguments(hash, calls[i], calls[j]);
  }

  /** Starting from an empty directory, an attempt file was written by a
      `before`, and a network is named only after one with the same bytes. */
  lemma {:induction false} AttemptHasAuthor(hash: string -> Digest, calls: seq<Call>, j: nat) returns (i: nat)
    requires j <= |calls| && Attempt in Found(hash, map[], calls, j)
    ensures i < j && calls[i].action.Before? && PlanAt(hash, map[], calls, i).Write?
            && PlanAt(hash, map[], calls, i).name == Attempt
    ensures Attempt !in Found(hash, map[], calls, i) && Attempt in Found(hash, map[], calls, i + 1)
    decreases j
  {
    assert j > 0;
    if Attempt in Found(hash, map[], calls, j - 1) {
      i := AttemptHasAuthor(hash, calls, j - 1);
    } else {
      i := j - 1;
      FoundNext(hash, map[], calls, i);
      AttemptWriter(hash, Found(hash, map[], calls, i), calls[i]);
    }
  }

  lemma AttemptWriter(hash: string -> Digest, d: Dir, c: Call)
    requires Decide(hash, d, c).Write? && Decide(hash, d, c).name == Attempt
    ensures c.action.Before?
  {
    hide Admits, Decode, MapOf, ReceiptBytes, AttemptOf, Observed, OverlayBytes, Mine, ValidSubnet, ProjectName,
         PrivateFile;
  }

  lemma IdentityFollowsBefore(hash: string -> Digest, calls: seq<Call>, j: nat, who: Identity) returns (i: nat)
    requires j < |calls| && SawAt(hash, map[], calls, j, who)
    ensures i < j && calls[i].action.Before? && Arguments(calls[i]) && Arguments(calls[j])
    ensures calls[i].project == calls[j].project && Dotted(calls[i].value) == Dotted(calls[j].value)
  {
    hide Found, AttemptOf, OverlayBytes, ReceiptBytes, Decode, MapOf, ReceiptFields, Arguments, Decide, Observed, Fits,
         Mine, Dotted;
    var now := Found(hash, map[], calls, j);
    PlanOfGuarded(hash, now, calls[j]);
    i := AttemptHasAuthor(hash, calls, j);
    AuthorsBytes(hash, calls, i, j);
    SameArguments(hash, calls[i], calls[j]);
  }

  lemma AuthorsBytes(hash: string -> Digest, calls: seq<Call>, i: nat, j: nat)
    requires i < j < |calls| && DoneAt(hash, map[], calls, j) && !calls[j].action.WriteOverlay?
    requires PlanAt(hash, map[], calls, i).Write? && PlanAt(hash, map[], calls, i).name == Attempt
    requires Attempt !in Found(hash, map[], calls, i) && Attempt in Found(hash, map[], calls, i + 1)
    ensures Arguments(calls[i]) && Attempt in Found(hash, map[], calls, j)
    ensures Found(hash, map[], calls, j)[Attempt].data == AttemptOf(hash, calls[i])
  {
    hide Found, Decide, AttemptOf, OverlayBytes, ReceiptBytes, Arguments;
    IntendedBytes(hash, Found(hash, map[], calls, i), calls[i]);
    WholeUnlessTorn(hash, calls, i);
    if Tears(hash, map[], calls, i) {
      TornFileBlocks(hash, map[], calls, i, j);
    }
    FilesNeverChange(hash, map[], calls, i + 1, j, Attempt);
  }

  lemma WholeUnlessTorn(hash: string -> Digest, calls: seq<Call>, i: nat)
    requires i < |calls| && PlanAt(hash, map[], calls, i).Write?
    requires var name := PlanAt(hash, map[], calls, i).name;
             name !in Found(hash, map[], calls, i) && name in Found(hash, map[], calls, i + 1)
    ensures var p := PlanAt(hash, map[], calls, i);
            Tears(hash, map[], calls, i) || Found(hash, map[], calls, i + 1)[p.name].data == p.data
  {
    hide FilesAfter, Decide;
    FoundNext(hash, map[], calls, i);
  }

  lemma SameArguments(hash: string -> Digest, c: Call, e: Call)
    requires Arguments(c) && Arguments(e) && AttemptOf(hash, c) == AttemptOf(hash, e)
    ensures c.value.V4? && e.value.V4? && c.project == e.project && Dotted(c.value) == Dotted(e.value)
  {
    hide AttemptBytes, Dotted, OverlayBytes;
    ProjectIsPlain(c.project);
    ProjectIsPlain(e.project);
    AttemptInjective(hash, c.project, e.project, c.value, e.value);
  }

  // ------------------------------------------------------ the receipt is used

  lemma PrivateIsIpv4(v: Network)
    requires ValidSubnet(v)
    ensures v.address < ADDRESSES
  {
    assert Size(24) == 256 && Size(16) == 256 * 256 && Size(12) == 16 * 256 * 256 && Size(8) == 256 * 256 * 256;
  }

  lemma DottedLength(v: Network)
    requires ValidSubnet(v)
    ensures |Dotted(v)| < 1200
  {
    PrivateIsIpv4(v);
    hide ValidSubnet;
    var a := v.address;
    assert a / 0x100_0000 < 256 && a / 0x1_0000 % 256 < 256 && a / 256 % 256 < 256 && a % 256 < 256;
  }

  lemma ReceiptLength(i: Identity)
    ensures |ReceiptBytes(i)| <= |i.id| + |i.name| + |i.overlay| + |i.subnet| + 60
  {
    assert |ID| == 2 && |NAME| == 4 && |OVERLAY_SHA256| == 14 && |SUBNET| == 6;
    var d: seq<Field> := [(SUBNET, i.subnet)];
    var c: seq<Field> := [(OVERLAY_SHA256, i.overlay)] + d;
    var b: seq<Field> := [(NAME, i.name)] + c;
    var a: seq<Field> := [(ID, i.id)] + b;
    assert a == ReceiptFields(i) && a[1..] == b && b[1..] == c && c[1..] == d;
    assert |Members(d, ",", ":")| == |i.subnet| + 12;
    assert |Members(c, ",", ":")| == |Members(d, ",", ":")| + |i.overlay| + 20;
    assert |Members(b, ",", ":")| == |Members(c, ",", ":")| + |i.name| + 10;
    assert |Members(a, ",", ":")| == |Members(b, ",", ":")| + |i.id| + 8;
  }

  /** An observed identity always fits the file limit. */
  lemma ObservedFits(hash: string -> Digest, c: Call)
    requires Arguments(c) && c.inventory.Some? && Observed(hash, c).Some?
    ensures |ReceiptBytes(Observed(hash, c).value)| <= FILE_LIMIT
  {
    ProjectIsPlain(c.project);
    var i := Observed(hash, c).value;
    ReceiptLength(i);
    DottedLength(c.value);
    hide ReceiptBytes, ValidSubnet, Dotted, OverlayBytes;
    assert |i.id| == 64 && |i.overlay| == 64 && |i.name| <= 36 + 10;
  }

  /** The call looks at an inventory in which this network is the project's
      own, and the block is clear of everything else. */
  ghost predicate Sees(hash: string -> Digest, c: Call, who: Identity)
    requires Arguments(c)
  {
    c.inventory.Some? && Observed(hash, c) == Some(who) && Fits(c, Some(who.id))
  }

  /** A receipt that was just made confirms the same network for every later
      action, over any inventory that still shows it. */
  lemma ReceiptConfirms(hash: string -> Digest, d: Dir, c: Call, next: Call, who: Identity)
    requires Receipt !in d && c.action.After? && Succeeds(d, Decide(hash, d, c), c.fault)
    requires next.action.Check? || next.action.Before? || next.action.After?
    requires Decide(hash, d, c).seen == Some(who)
    requires next.project == c.project && next.value == c.value && Arguments(next) && Sees(hash, next, who)
    ensures Decide(hash, Effect(d, Decide(hash, d, c), c.fault), next) == Pass(Some(who))
  {
    hide ReceiptBytes, Decode, MapOf, ReceiptFields, Admits, AttemptOf, OverlayBytes, ValidSubnet, ProjectName, Decide,
         Observed, FilesAgree;
    PlanOfGuarded(hash, d, c);
    var after := Effect(d, Decide(hash, d, c), c.fault);
    assert after == d[Receipt := Entry(true, ReceiptBytes(who))];
    StillAgree(hash, d, c, next, after);
    hide Fits, Arguments;
    Confirmed(hash, after, next, who);
  }

  /** With its receipt on file, the network is confirmed wherever it is seen. */
  lemma Confirmed(hash: string -> Digest, d: Dir, c: Call, who: Identity)
    requires c.action.Check? || c.action.Before? || c.action.After?
    requires Arguments(c) && FilesAgree(hash, d, c) && Attempt in d
    requires Receipt in d && d[Receipt] == Entry(true, ReceiptBytes(who)) && Sees(hash, c, who)
    ensures Decide(hash, d, c) == Pass(Some(who))
  {
    hide ReceiptBytes, Decode, MapOf, ReceiptFields, Fits, AttemptOf, OverlayBytes, Arguments, Observed, FilesAgree,
         Decide;
    KnownDecides(hash, d, c);
    ObservedFits(hash, c);
    ReceiptReadsBack(who);
  }

  lemma KnownDecides(hash: string -> Digest, d: Dir, c: Call)
    requires Ready(hash, d, c) && Receipt in d
    ensures Decide(hash, d, c) == DecideKnown(hash, d, c)
  {
    hide DecideKnown;
  }

  lemma SameFile(d: Dir, after: Dir, name: Name, data: string)
    requires name in d && name in after && after[name] == d[name]
    ensures Matches(after, name, data) <==> Matches(d, name, data)
  {
  }

  lemma StillAgree(hash: string -> Digest, d: Dir, c: Call, next: Call, after: Dir)
    requires Arguments(c) && FilesAgree(hash, d, c) && Arguments(next)
    requires next.project == c.project && next.value == c.value
    requires after.Keys == d.Keys + {Receipt}
    requires forall name <- {Overlay, Attempt} :: name in d ==> after[name] == d[name]
    ensures FilesAgree(hash, after, next)
  {
    SameAttempt(hash, c, next);
    hide AttemptOf, OverlayBytes, ValidSubnet, ProjectName, Matches;
    if Overlay in d { SameFile(d, after, Overlay, OverlayBytes(c.value)); }
    if Attempt in d { SameFile(d, after, Attempt, AttemptOf(hash, c)); }
  }

  lemma SameAttempt(hash: string -> Digest, c: Call, e: Call)
    requires Arguments(c) && Arguments(e) && c.value == e.value && c.project == e.project
    ensures AttemptOf(hash, c) == AttemptOf(hash, e)
  {
  }

  // ------------------------------------------------------- the intended run

  lemma AttemptLength(digest: Plain, project: Plain, subnet: Plain)
    ensures |Encode([(OVERLAY_SHA256, digest), (PROJECT, project), (SUBNET, subnet)], ", ", ": ")|
            <= |digest| + |project| + |subnet| + 60
  {
    assert |OVERLAY_SHA256| == 14 && |PROJECT| == 7 && |SUBNET| == 6;
    var x: seq<Field> := [(SUBNET, subnet)];
    var y: seq<Field> := [(PROJECT, project)] + x;
    var z: seq<Field> := [(OVERLAY_SHA256, digest)] + y;
    assert z == [(OVERLAY_SHA256, digest), (PROJECT, project), (SUBNET, subnet)] && z[1..] == y && y[1..] == x;
    assert |Members(x, ", ", ": ")| == |subnet| + 13;
    assert |Members(y, ", ", ": ")| == |Members(x, ", ", ": ")| + |project| + 15;
    assert |Members(z, ", ", ": ")| == |Members(y, ", ", ": ")| + |digest| + 22;
  }

  lemma AttemptFits(hash: string -> Digest, c: Call)
    requires Arguments(c)
    ensures |AttemptOf(hash, c)| <= FILE_LIMIT
  {
    ProjectIsPlain(c.project);
    DottedLength(c.value);
    AttemptLength(hash(OverlayBytes(c.value)), c.project, Dotted(c.value));
    hide Dotted, OverlayBytes, ValidSubnet, Encode;
    assert |c.project| <= 36;
  }

  /** The project owns nothing yet, and the block is free. */
  ghost predicate Vacant(c: Call) {
    c.inventory.Some? && Mine(c.inventory.value.networks, c.project) == [] && Fits(c, None)
  }

  /** The project's one network is well made and has this id. */
  predicate Owns(networks: seq<DockerNetwork>, project: Plain, v: Network, id: string) {
    exists i | 0 <= i < |networks| :: networks[i].id == id && OnlyNetwork(networks, project, v, i)
  }

  /** The network was made, and the block is clear of everything else. */
  ghost predicate Made(c: Call, id: string)
    requires Arguments(c)
  {
    ProjectIsPlain(c.project);
    c.inventory.Some? && Fits(c, Some(id)) && Owns(c.inventory.value.networks, c.project, c.value, id)
  }

  /** The identity of a network of the call's project. */
  function Named(hash: string -> Digest, c: Call, id: Plain): Identity
    requires Arguments(c)
  {
    ProjectIsPlain(c.project);
    Identity(id, NetworkName(c.project), hash(OverlayBytes(c.value)), Dotted(c.value))
  }

  lemma MadeIsSeen(hash: string -> Digest, c: Call, id: Plain)
    requires Arguments(c) && Made(c, id)
    ensures Sees(hash, c, Named(hash, c, id))
  {
    ProjectIsPlain(c.project);
    hide ValidSubnet, ProjectName, OverlayBytes, Dotted, NetworkName, Fits, OnlyNetwork;
  }

  lemma FreshPlan(hash: string -> Digest, d: Dir, c: Call)
    requires Arguments(c) && c.action.Before? && Vacant(c)
    requires Attempt !in d && Receipt !in d && FilesAgree(hash, d, c)
    ensures Decide(hash, d, c) == Write(Attempt, AttemptOf(hash, c), None)
  {
    hide Arguments, AttemptOf, FilesAgree, Fits, Mine;
  }

  lemma FirstLook(hash: string -> Digest, d: Dir, c: Call, who: Identity)
    requires Arguments(c) && c.action.After? && Sees(hash, c, who)
    requires Attempt in d && Receipt !in d && FilesAgree(hash, d, c)
    ensures Decide(hash, d, c) == Write(Receipt, ReceiptBytes(who), Some(who))
  {
    hide Arguments, AttemptOf, FilesAgree, Fits, Observed, ReceiptBytes;
  }

  /** The directory after the announcement, and after the first look. */
  function Announced(hash: string -> Digest, d: Dir, c: Call): Dir
    requires Arguments(c)
  {
    d[Attempt := Entry(true, AttemptOf(hash, c))]
  }

  function Receipted(hash: string -> Digest, d: Dir, c: Call, who: Identity): Dir
    requires Arguments(c)
  {
    Announced(hash, d, c)[Receipt := Entry(true, ReceiptBytes(who))]
  }

  lemma AnnouncedAgrees(hash: string -> Digest, d: Dir, c: Call, next: Call)
    requires Arguments(c) && Arguments(next) && next.project == c.project && next.value == c.value
    requires FilesAgree(hash, d, c)
    ensures FilesAgree(hash, Announced(hash, d, c), next)
  {
    AttemptFits(hash, c);
    SameAttempt(hash, c, next);
    hide AttemptOf, OverlayBytes, Arguments;
  }

  lemma ReceiptedAgrees(hash: string -> Digest, d: Dir, c: Call, next: Call, who: Identity)
    requires Arguments(c) && Arguments(next) && next.project == c.project && next.value == c.value
    requires FilesAgree(hash, d, c)
    ensures FilesAgree(hash, Receipted(hash, d, c, who), next)
  {
    AnnouncedAgrees(hash, d, c, next);
    hide AttemptOf, OverlayBytes, Arguments, ReceiptBytes;
  }

  /** `before` while the project owns nothing, then, the network made, `after`
      and any further actions; the state directory may hold the overlay. */
  ghost predicate Creation(hash: string -> Digest, d: Dir, calls: seq<Call>, id: Plain) {
    && |calls| >= 2 && calls[0].action.Before? && calls[1].action.After?
    && (forall c <- calls ::
          && (c.action.Check? || c.action.Before? || c.action.After?) && c.fault.NoFault? && Arguments(c)
          && c.project == calls[0].project && c.value == calls[0].value)
    && Attempt !in d && Receipt !in d && FilesAgree(hash, d, calls[0]) && Vacant(calls[0])
    && (forall c <- calls[1..] :: Made(c, id))
  }

  /** Without a crash, a new file is written whole. */
  lemma NewFile(d: Dir, p: Plan)
    requires p.Write? && p.name !in d
    ensures Succeeds(d, p, NoFault) && Effect(d, p, NoFault) == d[p.name := Entry(true, p.data)]
  {
  }

  lemma FoundFirst(hash: string -> Digest, d: Dir, calls: seq<Call>)
    ensures Found(hash, d, calls, 0) == d
  {
    hide Decide, Effect;
    assert calls[..0] == [];
  }

  lemma FirstStep(hash: string -> Digest, d: Dir, calls: seq<Call>, id: Plain)
    requires Creation(hash, d, calls, id)
    ensures |calls| >= 2 && FreshBefore(hash, d, calls, 0)
    ensures Found(hash, d, calls, 1) == Announced(hash, d, calls[0])
  {
    hide FilesAfter, Found, Arguments, Decide, AttemptOf, FilesAgree, Vacant, Made, Effect, Succeeds;
    FoundFirst(hash, d, calls);
    assert calls[0] in calls;
    FreshPlan(hash, d, calls[0]);
    NewFile(d, Decide(hash, d, calls[0]));
    FoundNext(hash, d, calls, 0);
  }

  lemma SecondStep(hash: string -> Digest, d: Dir, calls: seq<Call>, id: Plain, who: Identity)
    requires Creation(hash, d, calls, id) && who == Named(hash, calls[0], id)
    requires Found(hash, d, calls, 1) == Announced(hash, d, calls[0])
    ensures SawAt(hash, d, calls, 1, who)
    ensures Found(hash, d, calls, 2) == Receipted(hash, d, calls[0], who)
  {
    hide FilesAfter, Found, Arguments, Decide, AttemptOf, FilesAgree, Vacant, Made, Named, ReceiptBytes, Sees, Effect,
         Succeeds;
    CallSees(hash, d, calls, id, 1);
    AnnouncedAgrees(hash, d, calls[0], calls[1]);
    FirstLook(hash, Announced(hash, d, calls[0]), calls[1], who);
    NewFile(Announced(hash, d, calls[0]), Decide(hash, Announced(hash, d, calls[0]), calls[1]));
    FoundNext(hash, d, calls, 1);
  }

  lemma CallSees(hash: string -> Digest, d: Dir, calls: seq<Call>, id: Plain, k: nat)
    requires Creation(hash, d, calls, id) && 1 <= k < |calls|
    ensures Arguments(calls[0]) && Arguments(calls[k])
    ensures Sees(hash, calls[k], Named(hash, calls[0], id))
  {
    hide Arguments, Made, Sees, FilesAgree, Vacant, OverlayBytes, Dotted, NetworkName;
    assert calls[0] in calls && calls[k] in calls && calls[k] == calls[1..][k - 1] && calls[k] in calls[1..];
    MadeIsSeen(hash, calls[k], id);
  }

  lemma {:induction false} LaterStep(hash: string -> Digest, d: Dir, calls: seq<Call>, id: Plain, who: Identity, k: nat)
    requires Creation(hash, d, calls, id) && who == Named(hash, calls[0], id) && 2 <= k < |calls|
    requires Found(hash, d, calls, 2) == Receipted(hash, d, calls[0], who)
    ensures Found(hash, d, calls, k) == Receipted(hash, d, calls[0], who)
    ensures PlanAt(hash, d, calls, k) == Pass(Some(who)) && SawAt(hash, d, calls, k, who)
  {
    hide FilesAfter, Found, Arguments, Decide, AttemptOf, FilesAgree, Vacant, Made, Named, ReceiptBytes, Sees;
    if k > 2 {
      LaterStep(hash, d, calls, id, who, k - 1);
      FoundNext(hash, d, calls, k - 1);
    }
    CallSees(hash, d, calls, id, k);
    ReceiptedAgrees(hash, d, calls[0], calls[k], who);
    Confirmed(hash, Receipted(hash, d, calls[0], who), calls[k], who);
  }

  /** The intended sequence works: every call of it succeeds, and all that come
      after the announcement see the network that was made. */
  lemma CreationWorks(hash: string -> Digest, d: Dir, calls: seq<Call>, id: Plain) returns (who: Identity)
    requires Creation(hash, d, calls, id)
    ensures FreshBefore(hash, d, calls, 0)
    ensures who.id == id && forall k :: 1 <= k < |calls| ==> SawAt(hash, d, calls, k, who)
  {
    hide Creation, Found, SawAt, FreshBefore, Announced, Receipted, Sees, Arguments, OverlayBytes, Dotted, NetworkName;
    FirstStep(hash, d, calls, id);
    CallSees(hash, d, calls, id, 1);
    who := Named(hash, calls[0], id);
    SecondStep(hash, d, calls, id, who);
    forall k | 2 <= k < |calls|
      ensures SawAt(hash, d, calls, k, who)
    {
      LaterStep(hash, d, calls, id, who, k);
    }
  }
}
