/** When an invocation of the continuity guard succeeds and what it leaves
    behind, action by action, over the files and the inventory it finds
    (infra/docker/qualification_network.py). */
module GuardOutcomes {
  import opened LlmTypes
  import opened Subnets
  import opened FlatJson
  import opened ContinuityGuard

  // -------------------------------------------------------------- arguments

  lemma ArgumentsExactly(c: Call)
    ensures Arguments(c) <==>
      && ValidSubnet(c.value) && !c.action.Unknown?
      && (|c.project| == 14 || |c.project| == 36) && c.project[..4] == "nwq-"
      && forall i :: 4 <= i < |c.project| ==> '0' <= c.project[i] <= '9' || 'a' <= c.project[i] <= 'f'
  {
    var p := c.project;
    hide ValidSubnet;
    if |p| >= 4 {
      assert forall k :: 0 <= k < |p| - 4 ==> p[4..][k] == p[k + 4];
      assert forall i :: 4 <= i < |p| ==> p[i] == p[4..][i - 4] && p[i] in p[4..];
    }
  }

  // ------------------------------------------------------------------ texts

  predicate Digit(c: char) {
    '0' <= c <= '9'
  }

  /** The number a run of digits stands for. */
  function ValueOf(s: string): nat
    requires forall c <- s :: Digit(c)
  {
    if s == [] then 0
    else
      var last := s[|s| - 1];
      assert last in s && Digit(last);
      10 * ValueOf(s[..|s| - 1]) + (last as int - '0' as int)
  }

  lemma {:induction false} DecimalExactly(n: nat)
    ensures forall c <- Decimal(n) :: Digit(c)
    ensures ValueOf(Decimal(n)) == n
  {
    if n >= 10 {
      DecimalExactly(n / 10);
      var s := Decimal(n);
      assert s[..|s| - 1] == Decimal(n / 10);
    }
  }

  /** A number before a mark that is no digit is read back, and so is the rest. */
  lemma NumberFirst(a: nat, b: nat, mark: char, x: string, y: string)
    requires !Digit(mark) && Decimal(a) + [mark] + x == Decimal(b) + [mark] + y
    ensures a == b && x == y
  {
    DecimalExactly(a);
    DecimalExactly(b);
    var s, t := Decimal(a) + [mark] + x, Decimal(b) + [mark] + y;
    var m, n := |Decimal(a)|, |Decimal(b)|;
    hide Decimal, ValueOf;
    assert forall k :: 0 <= k < m ==> s[k] == Decimal(a)[k] && Decimal(a)[k] in Decimal(a);
    assert forall k :: 0 <= k < n ==> t[k] == Decimal(b)[k] && Decimal(b)[k] in Decimal(b);
    assert s[m] == mark && t[n] == mark;
    assert Decimal(a) == s[..m] && Decimal(b) == t[..m];
    assert x == s[m + 1..] && y == t[m + 1..];
  }

  lemma FourBytes(a: nat)
    requires a < ADDRESSES
    ensures a == 0x100_0000 * (a / 0x100_0000) + 0x1_0000 * (a / 0x1_0000 % 256) + 256 * (a / 256 % 256) + a % 256
  {
    var b := a / 256;
    var c := b / 256;
    assert a / 0x1_0000 == c && a / 0x100_0000 == c / 256;
    assert a == 256 * b + a % 256 && b == 256 * c + b % 256 && c == 256 * (c / 256) + c % 256;
  }

  /** The spelling of a block determines it. */
  lemma DottedInjective(v: Network, w: Network)
    requires v.V4? && w.V4? && v.address < ADDRESSES && w.address < ADDRESSES && Dotted(v) == Dotted(w)
    ensures v.address == w.address && v.prefix == w.prefix
  {
    var a, b := v.address, w.address;
    var a1, a2, a3, a4 := a / 0x100_0000, a / 0x1_0000 % 256, a / 256 % 256, a % 256;
    var b1, b2, b3, b4 := b / 0x100_0000, b / 0x1_0000 % 256, b / 256 % 256, b % 256;
    FourBytes(a);
    FourBytes(b);
    var p, q := Decimal(v.prefix), Decimal(w.prefix);
    DottedAs(v);
    DottedAs(w);
    hide Decimal, Dotted;
    var x4, y4 := Decimal(a4) + "/" + p, Decimal(b4) + "/" + q;
    var x3, y3 := Decimal(a3) + "." + x4, Decimal(b3) + "." + y4;
    var x2, y2 := Decimal(a2) + "." + x3, Decimal(b2) + "." + y3;
    NumberFirst(a1, b1, '.', x2, y2);
    NumberFirst(a2, b2, '.', x3, y3);
    NumberFirst(a3, b3, '.', x4, y4);
    NumberFirst(a4, b4, '/', p, q);
    DecimalExactly(v.prefix);
    DecimalExactly(w.prefix);
  }

  lemma DottedAs(v: Network)
    requires v.V4?
    ensures Dotted(v) == Decimal(v.address / 0x100_0000) + "." + (Decimal(v.address / 0x1_0000 % 256) + "."
                         + (Decimal(v.address / 256 % 256) + "."
                           + (Decimal(v.address % 256) + "/" + Decimal(v.prefix))))
  {
  }

  /** After a fresh `before`, only the very block it announced can succeed. */
  lemma AttemptPinsBlock(hash: string -> Digest, d: Dir, calls: seq<Call>, i: nat, j: nat)
    requires i < j < |calls| && FreshBefore(hash, d, calls, i)
    requires !calls[j].action.WriteOverlay? && DoneAt(hash, d, calls, j)
    ensures calls[j].project == calls[i].project && calls[j].value == calls[i].value
  {
    AttemptPins(hash, d, calls, i, j);
    FreshBeforeAnnounces(hash, d, calls, i);
    PlanOfGuarded(hash, Found(hash, d, calls, j), calls[j]);
    ArgumentsExactly(calls[i]);
    ArgumentsExactly(calls[j]);
    ValidSubnetExactly(calls[i].value);
    ValidSubnetExactly(calls[j].value);
    hide Found, Decide, AttemptOf, Dotted, Arguments, ValidSubnet, FreshBefore, DoneAt;
    DottedInjective(calls[i].value, calls[j].value);
  }

  // ------------------------------------------------------------------ files

  /** A file is absent, or private and holds exactly these bytes. */
  predicate AbsentOr(d: Dir, name: Name, data: string) {
    name in d ==> d[name] == Entry(true, data)
  }

  /** The overlay and the attempt, where they exist, are those of the call. */
  predicate OwnFiles(hash: string -> Digest, d: Dir, c: Call)
    requires Arguments(c)
  {
    AbsentOr(d, Overlay, OverlayBytes(c.value)) && AbsentOr(d, Attempt, AttemptOf(hash, c))
  }

  lemma OverlayFits(c: Call)
    requires Arguments(c)
    ensures |OverlayBytes(c.value)| <= FILE_LIMIT
  {
    DottedLength(c.value);
    hide Dotted, ValidSubnet;
  }

  lemma FilesExactly(hash: string -> Digest, d: Dir, c: Call)
    requires Arguments(c)
    ensures FilesAgree(hash, d, c) <==> OwnFiles(hash, d, c)
  {
    OverlayFits(c);
    AttemptFits(hash, c);
    hide OverlayBytes, AttemptOf, Arguments;
    EntryExactly(d, Overlay, OverlayBytes(c.value));
    EntryExactly(d, Attempt, AttemptOf(hash, c));
  }

  lemma EntryExactly(d: Dir, name: Name, data: string)
    requires |data| <= FILE_LIMIT
    ensures Matches(d, name, data) <==> name in d && d[name] == Entry(true, data)
  {
  }

  // -------------------------------------------------------------- inventory

  /** A network of the project, by its name or by its label. */
  predicate Belongs(n: DockerNetwork, project: string) {
    || n.name == project + "_novel-net"
    || ("com.docker.compose.project" in n.labels && n.labels["com.docker.compose.project"] == project)
  }

  /** A network as the guard wants it: local, bridged, open, without IPv6, under
      the project's labels, with the block as its only allocation. */
  predicate Sound(n: DockerNetwork, project: string, v: Network) {
    && |n.id| == 64 && (forall c <- n.id :: '0' <= c <= '9' || 'a' <= c <= 'f')
    && n.name == project + "_novel-net" && n.driver == "bridge" && n.scope == "local" && !n.isInternal && !n.ipv6
    && "com.docker.compose.project" in n.labels && n.labels["com.docker.compose.project"] == project
    && "com.docker.compose.network" in n.labels && n.labels["com.docker.compose.network"] == "novel-net"
    && ("com.docker.network.bridge.name" !in n.options || n.options["com.docker.network.bridge.name"] == "")
    && n.ipam == Ipam.Config([Subnet(v)])
  }

  /** Nothing belongs to the project, and the block is free. */
  ghost predicate Empty(c: Call) {
    && c.inventory.Some?
    && (forall n <- c.inventory.value.networks :: !Belongs(n, c.project))
    && Admits(c.value, c.inventory.value.networks, c.inventory.value.routes, None)
  }

  /** Network `i` is sound, the project has no other, and the block is free but
      for it. */
  ghost predicate Shows(c: Call, i: nat) {
    && c.inventory.Some? && i < |c.inventory.value.networks|
    && var networks := c.inventory.value.networks;
       && Sound(networks[i], c.project, c.value)
       && (forall k :: 0 <= k < |networks| && k != i ==> !Belongs(networks[k], c.project))
       && Admits(c.value, networks, c.inventory.value.routes, Some(networks[i].id))
  }

  lemma BelongsExactly(n: DockerNetwork, project: string, v: Network)
    ensures OfProject(n, project) <==> Belongs(n, project)
    ensures WellMade(n, project, v) <==> Sound(n, project, v)
  {
  }

  /** The identity of network `i`. */
  function IdentityOf(hash: string -> Digest, c: Call, i: nat): Identity
    requires Arguments(c) && c.inventory.Some? && i < |c.inventory.value.networks|
    requires AllPlain(c.inventory.value.networks[i].id)
  {
    ProjectIsPlain(c.project);
    Identity(c.inventory.value.networks[i].id, c.project + "_novel-net", hash(OverlayBytes(c.value)), Dotted(c.value))
  }

  lemma SoundIsPlain(n: DockerNetwork, project: string, v: Network)
    requires Sound(n, project, v)
    ensures AllPlain(n.id)
  {
  }

  /** The guard sees a network it accepts exactly where one is shown. */
  lemma SeesExactly(hash: string -> Digest, c: Call)
    requires Arguments(c) && c.inventory.Some?
    ensures forall i: nat :: Shows(c, i) ==>
              && AllPlain(c.inventory.value.networks[i].id)
              && Observed(hash, c) == Some(IdentityOf(hash, c, i)) && Fits(c, Some(IdentityOf(hash, c, i).id))
    ensures Observed(hash, c).Some? && Fits(c, Some(Observed(hash, c).value.id)) ==> exists i: nat :: Shows(c, i)
  {
    ProjectIsPlain(c.project);
    var networks, project: Plain, v := c.inventory.value.networks, c.project, c.value;
    assert v.V4? by { ArgumentsAreV4(c); }
    forall n: DockerNetwork
      ensures OfProject(n, project) <==> Belongs(n, project)
      ensures WellMade(n, project, v) <==> Sound(n, project, v)
      ensures Sound(n, project, v) ==> AllPlain(n.id)
    {
      BelongsExactly(n, project, v);
      if Sound(n, project, v) { SoundIsPlain(n, project, v); }
    }
    hide WellMade, OfProject, Sound, Belongs, Arguments, Admits, OverlayBytes, Dotted, AllPlain;
    var o := OwnedNetwork(hash, networks, project, v);
    if o.Some? && Fits(c, Some(o.value.id)) {
      var i :| 0 <= i < |networks| && OnlyNetwork(networks, project, v, i);
      assert Shows(c, i);
    }
  }

  lemma ArgumentsAreV4(c: Call)
    requires Arguments(c)
    ensures c.value.V4?
  {
  }

  lemma EmptyExactly(c: Call)
    ensures Empty(c) <==> c.inventory.Some? && Mine(c.inventory.value.networks, c.project) == [] && Fits(c, None)
  {
    hide Admits;
    if c.inventory.Some? {
      var networks := c.inventory.value.networks;
      forall n: DockerNetwork
        ensures OfProject(n, c.project) <==> Belongs(n, c.project)
      {
        BelongsExactly(n, c.project, c.value);
      }
      hide OfProject, Belongs;
      if Mine(networks, c.project) != [] {
        assert Mine(networks, c.project)[0] in Mine(networks, c.project);
      }
    }
  }

  // ---------------------------------------------------------------- actions

  /** Without a crash an invocation that fails changes nothing. */
  lemma FailureChangesNothing(hash: string -> Digest, d: Dir, c: Call)
    requires c.fault.NoFault? && !Succeeds(d, Decide(hash, d, c), c.fault)
    ensures Effect(d, Decide(hash, d, c), c.fault) == d
  {
    hide Decide;
  }

  /** `overlay` writes the overlay unless another one is there. */
  lemma OverlayExactly(hash: string -> Digest, d: Dir, c: Call)
    requires c.action.WriteOverlay?
    ensures Succeeds(d, Decide(hash, d, c), c.fault) <==>
            Arguments(c) && c.fault.NoFault? && AbsentOr(d, Overlay, OverlayBytes(c.value))
    ensures Succeeds(d, Decide(hash, d, c), c.fault) ==>
            Effect(d, Decide(hash, d, c), c.fault) == d[Overlay := Entry(true, OverlayBytes(c.value))]
  {
    if Arguments(c) {
      OverlayFits(c);
      hide OverlayBytes, Arguments;
      EntryExactly(d, Overlay, OverlayBytes(c.value));
    }
  }

  /** Before there is a receipt, `check` succeeds exactly while nothing was
      attempted and nothing exists; it changes nothing. */
  lemma CheckExactly(hash: string -> Digest, d: Dir, c: Call)
    requires c.action.Check? && Receipt !in d
    ensures Succeeds(d, Decide(hash, d, c), c.fault) <==>
            Arguments(c) && c.fault.NoFault? && OwnFiles(hash, d, c) && Attempt !in d && Empty(c)
    ensures Effect(d, Decide(hash, d, c), c.fault) == d
  {
    FreshDecision(hash, d, c);
    hide Arguments, OwnFiles, Empty, AttemptOf, Decide;
  }

  /** `before` succeeds under the same condition, and announces the attempt. */
  lemma BeforeExactly(hash: string -> Digest, d: Dir, c: Call)
    requires c.action.Before? && Receipt !in d
    ensures Succeeds(d, Decide(hash, d, c), c.fault) <==>
            Arguments(c) && c.fault.NoFault? && OwnFiles(hash, d, c) && Attempt !in d && Empty(c)
    ensures Succeeds(d, Decide(hash, d, c), c.fault) ==>
            Effect(d, Decide(hash, d, c), c.fault) == d[Attempt := Entry(true, AttemptOf(hash, c))]
  {
    FreshDecision(hash, d, c);
    hide Arguments, OwnFiles, Empty, AttemptOf, Decide;
  }

  lemma FreshDecision(hash: string -> Digest, d: Dir, c: Call)
    requires (c.action.Check? || c.action.Before?) && Receipt !in d
    ensures Decide(hash, d, c) ==
            if Arguments(c) && OwnFiles(hash, d, c) && Attempt !in d && Empty(c)
            then if c.action.Before? then Write(Attempt, AttemptOf(hash, c), None) else Pass(None)
            else Refuse
  {
    EmptyExactly(c);
    if Arguments(c) { FilesExactly(hash, d, c); }
    hide Arguments, OwnFiles, FilesAgree, AttemptOf, Empty, Mine, Fits;
  }

  /** Before there is a receipt, `after` succeeds exactly when an attempt was
      announced and the project's one network is there; it writes the receipt. */
  lemma AfterExactly(hash: string -> Digest, d: Dir, c: Call)
    requires c.action.After? && Receipt !in d
    ensures Succeeds(d, Decide(hash, d, c), c.fault) <==>
            && Arguments(c) && c.fault.NoFault? && OwnFiles(hash, d, c) && Attempt in d && exists i: nat :: Shows(c, i)
    ensures forall i: nat :: Succeeds(d, Decide(hash, d, c), c.fault) && Shows(c, i) ==>
              && AllPlain(c.inventory.value.networks[i].id)
              && Effect(d, Decide(hash, d, c), c.fault) ==
                 d[Receipt := Entry(true, ReceiptBytes(IdentityOf(hash, c, i)))]
  {
    if Arguments(c) {
      FilesExactly(hash, d, c);
      if c.inventory.Some? { SeesExactly(hash, c); }
    }
    hide Arguments, OwnFiles, FilesAgree, AttemptOf, Fits, Observed, ReceiptBytes, IdentityOf, AllPlain;
  }

  /** What a receipt of this identity decodes to. */
  function ReceiptMap(who: Identity): map<string, string> {
    map["id" := who.id, "name" := who.name, "overlay_sha256" := who.overlay, "subnet" := who.subnet]
  }

  lemma ReceiptMapExactly(who: Identity)
    ensures MapOf(ReceiptFields(who)) == ReceiptMap(who)
    ensures Decode(ReceiptBytes(who)) == Some(ReceiptMap(who))
  {
    ReceiptReadsBack(who);
    hide Decode, ReceiptBytes;
    ReceiptNames(who);
    MembersOfReceipt(who);
    NamesApart();
    assert ID == "id" && NAME == "name" && OVERLAY_SHA256 == "overlay_sha256" && SUBNET == "subnet";
    hide MapOf, ReceiptFields;
  }

  lemma ReceiptNames(who: Identity)
    ensures MapOf(ReceiptFields(who)).Keys == {ID, NAME, OVERLAY_SHA256, SUBNET}
  {
    var f := ReceiptFields(who);
    NamesOf(f);
    assert f[0].0 == ID && f[1].0 == NAME && f[2].0 == OVERLAY_SHA256 && f[3].0 == SUBNET;
    hide MapOf;
  }

  lemma {:induction false} NamesOf(fields: seq<Field>)
    ensures forall k :: k in MapOf(fields) <==> exists i :: 0 <= i < |fields| && fields[i].0 == k
  {
    if fields != [] {
      NamesOf(fields[1..]);
      assert forall i :: 0 < i < |fields| ==> fields[i] == fields[1..][i - 1];
    }
  }

  /** With a receipt, every action but `overlay` succeeds exactly when the
      receipt names the project's one network, which is there; and it changes
      nothing. */
  lemma KnownExactly(hash: string -> Digest, d: Dir, c: Call)
    requires (c.action.Check? || c.action.Before? || c.action.After?) && Receipt in d
    ensures Succeeds(d, Decide(hash, d, c), c.fault) <==>
      && Arguments(c) && c.fault.NoFault? && OwnFiles(hash, d, c) && Attempt in d
      && d[Receipt].safe && |d[Receipt].data| <= 4096
      && exists i: nat :: Shows(c, i) && AllPlain(c.inventory.value.networks[i].id)
           && Decode(d[Receipt].data) == Some(ReceiptMap(IdentityOf(hash, c, i)))
    ensures Effect(d, Decide(hash, d, c), c.fault) == d
  {
    if Arguments(c) {
      FilesExactly(hash, d, c);
      if c.inventory.Some? { SeesExactly(hash, c); }
      forall who: Identity
        ensures MapOf(ReceiptFields(who)) == ReceiptMap(who)
      {
        ReceiptMapExactly(who);
      }
    }
    hide Arguments, OwnFiles, FilesAgree, AttemptOf, Fits, Observed, ReceiptMap, IdentityOf, AllPlain, Decode, MapOf,
         ReceiptFields;
  }
}
