/** metadata/node.go: peer definitions and nodes in buckets. */
module NodeCodec {
  import opened GoStrings
  import opened Results
  import opened Records
  import opened Numbers
  import opened Buckets
  import opened MetadataHelpers

  // ----- comma-separated lists -----

  function DecList(text: string): seq<string> {
    if text == "" then [] else Split(text, ',')
  }

  /** What a list reads back as. */
  function NormalList(l: seq<string>): seq<string> {
    DecList(Join(l, ","))
  }

  lemma {:induction false} SplitHasNoComma(s: string, run: string)
    requires NoComma(run)
    ensures forall t :: t in SplitFrom(s, ',', run) ==> NoComma(t)
  {
    if s != "" {
      SplitHasNoComma(s[1..], if s[0] == ',' then "" else run + [s[0]]);
    }
  }

  /** A list reads back unchanged exactly when it is not `[""]` and no element has a comma. */
  lemma ListReadsBack(l: seq<string>)
    ensures NormalList(l) == l <==> l != [""] && forall s :: s in l ==> NoComma(s)
  {
    var text := Join(l, ",");
    if text != "" {
      SplitHasNoComma(text, "");
      if l != [] && forall s :: s in l ==> NoComma(s) {
        SplitJoin(l);
      }
    } else {
      JoinEmpty(l);
    }
  }

  lemma JoinEmpty(l: seq<string>)
    ensures Join(l, ",") == "" ==> l == [] || l == [""]
  {
  }

  // ----- peer definitions -----

  function PeerFields(d: PeerDefinition): map<Key, string> {
    map[GitReferenceKey := d.gitReference, TransportsKey := Join(d.transports, ","), MuxersKey := Join(d.muxers, ","),
        SecurityTransportsKey := Join(d.securityTransports, ","), RoutingKey := d.routing]
  }

  function NormalPeer(d: PeerDefinition): PeerDefinition {
    d.(transports := NormalList(d.transports), muxers := NormalList(d.muxers),
       securityTransports := NormalList(d.securityTransports))
  }

  function PeerOf(sub: Option<Bucket>): PeerDefinition {
    match sub
    case None => PeerDefinition("", [], [], [], "")
    case Some(s) =>
      PeerDefinition(TextOf(s, GitReferenceKey), DecList(TextOf(s, TransportsKey)), DecList(TextOf(s, MuxersKey)),
                     DecList(TextOf(s, SecurityTransportsKey)), TextOf(s, RoutingKey))
  }

  function DecPeer(b: Bucket): PeerDefinition {
    PeerOf(SubOf(b, DefinitionKey))
  }

  function EncPeer(b: Bucket, d: PeerDefinition): (r: Result<Bucket, Error>) {
    Recreated(b, DefinitionKey, Success(Values(PeerFields(d))))
  }

  lemma PeerReadsBack(d: PeerDefinition)
    ensures PeerOf(Some(Values(PeerFields(d)))) == NormalPeer(d)
  {
    var f := PeerFields(d);
    assert forall k :: k in f ==> TextOf(Values(f), k) == f[k];
  }

  method ReadPeerDefinition(tx: Tx, p: Path) returns (d: PeerDefinition)
    requires Exists(tx.root, p)
    ensures d == DecPeer(At(tx.root, p))
  {
    if !tx.Has(p, DefinitionKey) {
      return PeerDefinition("", [], [], [], "");
    }
    SubExists(tx.root, p, DefinitionKey);
    var f := ReadFields(tx, p + [DefinitionKey]);
    return PeerDefinition(Field(f, GitReferenceKey), DecList(Field(f, TransportsKey)), DecList(Field(f, MuxersKey)),
                          DecList(Field(f, SecurityTransportsKey)), Field(f, RoutingKey));
  }

  method WritePeerDefinition(tx: Tx, p: Path, d: PeerDefinition) returns (err: Option<Error>)
    requires Exists(tx.root, p)
    modifies tx
    ensures Ran(old(tx.root), tx.root, p, EncPeer(At(old(tx.root), p), d), err)
  {
    ghost var r0 := tx.root;
    err := RecreateBucket(tx, p, DefinitionKey);
    if err.Some? {
      return;
    }
    ghost var r1 := tx.root;
    err := PutAll(tx, p + [DefinitionKey], PeerFields(d));
    assert map[] + Values(PeerFields(d)) == Values(PeerFields(d));
    ghost var spec := Success(Values(PeerFields(d)));
    RanSub(r1, tx.root, p, DefinitionKey, spec, err);
    RanAfter(r0, r1, tx.root, p, InSub(At(r1, p), DefinitionKey, spec), err);
  }

  // ----- nodes -----

  function NodeFields(n: Node): map<Key, string> {
    map[IdKey := n.id, AddressKey := n.address, AgentPortKey := Itoa(n.agentPort), AppPortKey := Itoa(n.appPort)]
  }

  ghost function NormalNode(n: Node): Node {
    n.(labels := SortedSet(Members(n.labels)), peer := NormalPeer(n.peer))
  }

  function IntOf(text: string): Int64 {
    match Atoi(text) case Some(n) => n case None => 0
  }

  /** Reading a node kept under `id`: a stored id wins. */
  ghost function DecNode(x: Texts, id: string, b: Bucket): Result<Node, Error> {
    var times :- DecTimestamps(x, b);
    Success(Node(if ValueOf(b, IdKey).Some? then TextOf(b, IdKey) else id, TextOf(b, AddressKey),
                 IntOf(TextOf(b, AgentPortKey)), IntOf(TextOf(b, AppPortKey)),
                 DecPeer(b), DecLabels(b), times.0, times.1))
  }

  lemma NodeLabels(x: Texts, id: string, b: Bucket)
    requires DecNode(x, id, b).Success?
    ensures DecNode(x, id, b).value.labels == DecLabels(b)
  {
  }

  function EncNode(x: Texts, b: Bucket, n: Node): (r: Result<Bucket, Error>) {
    var b1 :- EncTimestamps(x, b, n.createdAt, n.updatedAt);
    var b2 :- EncLabels(b1, n.labels);
    var b3 :- EncPeer(b2, n.peer);
    PutAllIn(b3, NodeFields(n))
  }

  lemma NodeFieldsRead(b: Bucket, n: Node)
    ensures var c := b + Values(NodeFields(n));
      && SameExcept(b, c, {IdKey, AddressKey, AgentPortKey, AppPortKey})
      && ValueOf(c, IdKey) == Some(n.id) && TextOf(c, AddressKey) == n.address
      && IntOf(TextOf(c, AgentPortKey)) == n.agentPort && IntOf(TextOf(c, AppPortKey)) == n.appPort
  {
    var f := NodeFields(n);
    FieldsPut(b, f);
    FieldPut(b, f, IdKey);
    FieldPut(b, f, AddressKey);
    PortReads(b, f, AgentPortKey, n.agentPort);
    PortReads(b, f, AppPortKey, n.appPort);
  }

  lemma PortReads(b: Bucket, f: map<Key, string>, k: Key, port: Int64)
    requires k in f && f[k] == Itoa(port)
    ensures IntOf(TextOf(b + Values(f), k)) == port
  {
    FieldPut(b, f, k);
    IntReadsBack(port);
  }

  lemma IntReadsBack(n: Int64)
    ensures IntOf(Itoa(n)) == n
  {
    AtoiInverse(n);
  }

  lemma FieldsPut(b: Bucket, f: map<Key, string>)
    ensures SameExcept(b, b + Values(f), f.Keys)
  {
  }

  lemma FieldPut(b: Bucket, f: map<Key, string>, k: Key)
    requires k in f
    ensures TextOf(b + Values(f), k) == f[k] && ValueOf(b + Values(f), k) == Some(f[k])
  {
  }

  /** A written node reads back in normal form, whatever the bucket held before. */
  lemma NodeReadsBack(x: Texts, b: Bucket, n: Node, id: string)
    requires x.TimesReadBack() && EncNode(x, b, n).Success?
    ensures DecNode(x, id, EncNode(x, b, n).value) == Success(NormalNode(n))
  {
    var b1 := EncTimestamps(x, b, n.createdAt, n.updatedAt).value;
    var b2 := EncLabels(b1, n.labels).value;
    var b3 := EncPeer(b2, n.peer).value;
    var c := EncNode(x, b, n).value;
    assert c == b3 + Values(NodeFields(n));
    TimestampsReadBack(x, b, n.createdAt, n.updatedAt);
    LabelsReadBack(b1, n.labels);
    PeerReadsBack(n.peer);
    NodeFieldsRead(b3, n);
    NodeFromSteps(x, n, id, b1, b2, b3, c);
  }

  lemma NodeFromSteps(x: Texts, n: Node, id: string, b1: Bucket, b2: Bucket, b3: Bucket, c: Bucket)
    requires x.TimesReadBack()
    requires ValueOf(b1, CreatedAtKey) == Some(x.time(n.createdAt)) && ValueOf(b1, UpdatedAtKey) == Some(x.time(n.updatedAt))
    requires SameExcept(b1, b2, {LabelsKey}) && LabelSet(b2) == Members(n.labels)
    requires SameExcept(b2, b3, {DefinitionKey}) && DecPeer(b3) == NormalPeer(n.peer)
    requires SameExcept(b3, c, {IdKey, AddressKey, AgentPortKey, AppPortKey})
    requires ValueOf(c, IdKey) == Some(n.id) && TextOf(c, AddressKey) == n.address
    requires IntOf(TextOf(c, AgentPortKey)) == n.agentPort && IntOf(TextOf(c, AppPortKey)) == n.appPort
    ensures DecNode(x, id, c) == Success(NormalNode(n))
  {
    var last := {IdKey, AddressKey, AgentPortKey, AppPortKey};
    Kept(b1, b2, {LabelsKey}, CreatedAtKey);
    Kept(b1, b2, {LabelsKey}, UpdatedAtKey);
    Kept(b2, b3, {DefinitionKey}, CreatedAtKey);
    Kept(b2, b3, {DefinitionKey}, UpdatedAtKey);
    Kept(b2, b3, {DefinitionKey}, LabelsKey);
    Kept(b3, c, last, CreatedAtKey);
    Kept(b3, c, last, UpdatedAtKey);
    Kept(b3, c, last, LabelsKey);
    Kept(b3, c, last, DefinitionKey);
  }

  method ReadNode(x: Texts, tx: Tx, p: Path, id: string) returns (r: Result<Node, Error>)
    requires Exists(tx.root, p)
    ensures r == DecNode(x, id, At(tx.root, p))
  {
    var times := ReadTimestamps(x, tx, p);
    if times.Failure? {
      return Failure(times.error);
    }
    var labels := ReadLabels(tx, p);
    var peer := ReadPeerDefinition(tx, p);
    var f := ReadFields(tx, p);
    return Success(Node(if IdKey in f then f[IdKey] else id, Field(f, AddressKey),
                        IntOf(Field(f, AgentPortKey)), IntOf(Field(f, AppPortKey)),
                        peer, labels, times.value.0, times.value.1));
  }

  method WriteNode(x: Texts, tx: Tx, p: Path, n: Node) returns (err: Option<Error>)
    requires Exists(tx.root, p)
    modifies tx
    ensures Ran(old(tx.root), tx.root, p, EncNode(x, At(old(tx.root), p), n), err)
  {
    ghost var r0 := tx.root;
    err := WriteTimestamps(x, tx, p, n.createdAt, n.updatedAt);
    if err.Some? {
      return;
    }
    ghost var r1 := tx.root;
    err := WriteLabels(tx, p, n.labels);
    ConfinedTrans(r0, r1, tx.root, p);
    if err.Some? {
      return;
    }
    ghost var r2 := tx.root;
    err := WritePeerDefinition(tx, p, n.peer);
    ConfinedTrans(r0, r2, tx.root, p);
    if err.Some? {
      return;
    }
    ghost var r3 := tx.root;
    err := PutAll(tx, p, NodeFields(n));
    ConfinedTrans(r0, r3, tx.root, p);
  }
}
