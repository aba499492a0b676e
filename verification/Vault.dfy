/**
 The document vault on values: envelope encryption under rotating keys, an
 object store, document metadata and an access log. The cipher is a parameter
 with the one law that opening undoes sealing.
 */
module Vault {
  import opened Common
  import opened Decimals

  newtype byte = x: int | 0 <= x < 256

  type Bytes = seq<byte>

  const KEY_LENGTH := 32
  const IV_LENGTH := 12
  const TAG_LENGTH := 16

  /** Authenticated encryption: `seal(key, iv, plaintext)` and `open(key, iv, tag, ciphertext)`. */
  datatype Cipher = Cipher(seal: (Bytes, Bytes, Bytes) -> Sealed, open: (Bytes, Bytes, Bytes, Bytes) -> Option<Bytes>)

  datatype Sealed = Sealed(ciphertext: Bytes, tag: Bytes)

  ghost predicate Lawful(c: Cipher) {
    forall key, iv, plain :: |key| == KEY_LENGTH ==>
      var s := c.seal(key, iv, plain);
      |s.tag| == TAG_LENGTH && c.open(key, iv, s.tag, s.ciphertext) == Some(plain)
  }

  // ---- Key versions ----

  datatype Kms = Kms(keks: map<string, Bytes>, current: string)

  function VersionName(n: nat): string {
    "v" + Decimal(n)
  }

  lemma VersionNameInjective(m: nat, n: nat)
    requires VersionName(m) == VersionName(n)
    ensures m == n
  {
    assert VersionName(m)[1..] == Decimal(m) && VersionName(n)[1..] == Decimal(n);
    DecimalInjective(m, n);
  }

  /** One of the first n version names. */
  predicate IsVersion(v: string, n: nat) {
    exists i :: 1 <= i <= n && v == VersionName(i)
  }

  lemma NextVersionIsNew(v: string, n: nat)
    requires IsVersion(v, n)
    ensures IsVersion(v, n + 1) && v != VersionName(n + 1)
  {
    var i :| 1 <= i <= n && v == VersionName(i);
    assert 1 <= i <= n + 1;
    if v == VersionName(n + 1) {
      VersionNameInjective(i, n + 1);
    }
  }

  /** The versions are v1, v2, ... without gaps, and the current one has a key. */
  predicate ValidKms(k: Kms) {
    && k.current in k.keks
    && (forall v :: v in k.keks ==> |k.keks[v]| == KEY_LENGTH)
    && (forall v :: v in k.keks ==> IsVersion(v, |k.keks|))
  }

  function Rotated(k: Kms, newKek: Bytes): Kms {
    var version := VersionName(|k.keks| + 1);
    Kms(k.keks[version := newKek], version)
  }

  lemma OneMoreKey(keks: map<string, Bytes>, version: string, newKek: Bytes)
    requires version !in keks
    ensures |keks[version := newKek]| == |keks| + 1
  {
    assert keks[version := newKek].Keys == keks.Keys + {version};
  }

  /** A rotation's version name was never in use, so no earlier key is lost. */
  lemma RotationIsFresh(k: Kms, newKek: Bytes)
    requires ValidKms(k) && |newKek| == KEY_LENGTH
    ensures Rotated(k, newKek).current !in k.keks
    ensures ValidKms(Rotated(k, newKek))
    ensures forall v :: v in k.keks ==> v in Rotated(k, newKek).keks && Rotated(k, newKek).keks[v] == k.keks[v]
  {
    hide VersionName;
    var n, version := |k.keks|, VersionName(|k.keks| + 1);
    assert IsVersion(version, n + 1) by {
      assert 1 <= n + 1 <= n + 1;
    }
    hide IsVersion;
    forall v | v in k.keks ensures IsVersion(v, n + 1) && v != version {
      NextVersionIsNew(v, n);
    }
    OneMoreKey(k.keks, version, newKek);
  }

  // ---- Wrapped keys and envelopes ----

  /** iv, tag and encrypted key in one buffer. */
  function Pack(iv: Bytes, s: Sealed): Bytes {
    iv + s.tag + s.ciphertext
  }

  function Wrap(c: Cipher, kek: Bytes, dek: Bytes, iv: Bytes): Bytes {
    Pack(iv, c.seal(kek, iv, dek))
  }

  function Unwrap(c: Cipher, kek: Bytes, wrapped: Bytes): Option<Bytes> {
    if |wrapped| < IV_LENGTH + TAG_LENGTH then None
    else c.open(kek, wrapped[..IV_LENGTH], wrapped[IV_LENGTH..IV_LENGTH + TAG_LENGTH], wrapped[IV_LENGTH + TAG_LENGTH..])
  }

  lemma UnwrapUndoesWrap(c: Cipher, kek: Bytes, dek: Bytes, iv: Bytes)
    requires Lawful(c) && |kek| == KEY_LENGTH && |iv| == IV_LENGTH
    ensures Unwrap(c, kek, Wrap(c, kek, dek, iv)) == Some(dek)
  {
    var s, w := c.seal(kek, iv, dek), Wrap(c, kek, dek, iv);
    assert w[..IV_LENGTH] == iv && w[IV_LENGTH..IV_LENGTH + TAG_LENGTH] == s.tag && w[IV_LENGTH + TAG_LENGTH..] == s.ciphertext;
  }

  datatype Envelope = Envelope(ciphertext: Bytes, iv: Bytes, authTag: Bytes, encryptedDek: Bytes, kekVersion: string)

  /** The fresh random bytes of one upload: data key, its iv, and the iv of its wrapping. */
  datatype Randomness = Randomness(dek: Bytes, iv: Bytes, wrapIv: Bytes)

  predicate WellSized(r: Randomness) {
    |r.dek| == KEY_LENGTH && |r.iv| == IV_LENGTH && |r.wrapIv| == IV_LENGTH
  }

  function Encrypt(c: Cipher, k: Kms, plain: Bytes, r: Randomness): Envelope
    requires k.current in k.keks
  {
    var s := c.seal(r.dek, r.iv, plain);
    Envelope(s.ciphertext, r.iv, s.tag, Wrap(c, k.keks[k.current], r.dek, r.wrapIv), k.current)
  }

  datatype VaultError = DocumentNotFound | AccessDenied | EmptyDocument | NoObject | NoKey | NotAuthentic | BadKeyLength

  function Decrypt(c: Cipher, k: Kms, e: Envelope): Result<Bytes, VaultError> {
    if e.kekVersion !in k.keks then Err(NoKey)
    else
      var dek := Unwrap(c, k.keks[e.kekVersion], e.encryptedDek);
      if dek == None then Err(NotAuthentic)
      else if |dek.value| != KEY_LENGTH then Err(BadKeyLength)
      else
        var plain := c.open(dek.value, e.iv, e.authTag, e.ciphertext);
        if plain == None then Err(NotAuthentic) else Ok(plain.value)
  }

  lemma DecryptUndoesEncrypt(c: Cipher, k: Kms, plain: Bytes, r: Randomness)
    requires Lawful(c) && ValidKms(k) && WellSized(r)
    ensures Decrypt(c, k, Encrypt(c, k, plain, r)) == Ok(plain)
  {
    UnwrapUndoesWrap(c, k.keks[k.current], r.dek, r.wrapIv);
  }

  /**
   Every document is sealed under its own data key, and that key under the
   current one: what is packed away opens to the key given, and the key given
   opens the ciphertext. Key, iv and tag have the lengths of AES-256-GCM.
   */
  lemma SealedUnderOwnKey(c: Cipher, k: Kms, plain: Bytes, r: Randomness)
    requires Lawful(c) && ValidKms(k) && |r.dek| == 32 && |r.iv| == 12 && |r.wrapIv| == 12
    ensures var e := Encrypt(c, k, plain, r);
            && e.iv == r.iv && e.kekVersion == k.current && |e.authTag| == 16
            && |k.keks[k.current]| == 32
            && Unwrap(c, k.keks[k.current], e.encryptedDek) == Some(r.dek)
            && c.open(r.dek, e.iv, e.authTag, e.ciphertext) == Some(plain)
    ensures var wrapped := Encrypt(c, k, plain, r).encryptedDek;
            |wrapped| >= 28 && wrapped[..12] == r.wrapIv && c.open(k.keks[k.current], wrapped[..12], wrapped[12..28], wrapped[28..]) == Some(r.dek)
  {
    var kek := k.keks[k.current];
    assert |kek| == KEY_LENGTH;
    UnwrapUndoesWrap(c, kek, r.dek, r.wrapIv);
    var s := c.seal(kek, r.wrapIv, r.dek);
    assert Wrap(c, kek, r.dek, r.wrapIv) == r.wrapIv + s.tag + s.ciphertext;
    assert Wrap(c, kek, r.dek, r.wrapIv)[..12] == r.wrapIv;
    hide Wrap, Pack, ValidKms;
  }

  /** The envelope's packed key opens to the data key, and the data key opens the ciphertext. */
  predicate OpensWith(c: Cipher, k: Kms, e: Envelope, dek: Bytes, plain: Bytes) {
    && e.kekVersion in k.keks
    && Unwrap(c, k.keks[e.kekVersion], e.encryptedDek) == Some(dek)
    && c.open(dek, e.iv, e.authTag, e.ciphertext) == Some(plain)
  }

  lemma EncryptOpens(c: Cipher, k: Kms, plain: Bytes, r: Randomness)
    requires ValidKms(k)
    ensures Lawful(c) && |r.dek| == 32 && |r.iv| == 12 && |r.wrapIv| == 12 ==> OpensWith(c, k, Encrypt(c, k, plain, r), r.dek, plain)
  {
    if Lawful(c) && |r.dek| == 32 && |r.iv| == 12 && |r.wrapIv| == 12 {
      SealedUnderOwnKey(c, k, plain, r);
      hide Encrypt, Unwrap, Lawful;
    }
  }

  // ---- Documents ----

  const ENVIRONMENT := "development"

  function StoragePath(customerId: string, documentType: string, documentId: string): string {
    "/" + ENVIRONMENT + "/" + customerId + "/" + documentType + "/" + documentId + ".enc"
  }

  lemma PathIs(customerId: string, documentType: string, documentId: string)
    ensures StoragePath(customerId, documentType, documentId) == "/development/" + customerId + "/" + documentType + "/" + documentId + ".enc"
  {
    assert "/" + ENVIRONMENT + "/" == "/development/";
  }

  /** Whoever owns them and whatever they are, documents with different ids of one length have different paths. */
  lemma PathsDiffer(c1: string, t1: string, id1: string, c2: string, t2: string, id2: string)
    requires |id1| == |id2| && StoragePath(c1, t1, id1) == StoragePath(c2, t2, id2)
    ensures id1 == id2
  {
    var p1, p2 := StoragePath(c1, t1, id1), StoragePath(c2, t2, id2);
    var n := |p1| - |id1| - 4;
    assert id1 == p1[n..n + |id1|];
    assert id2 == p2[n..n + |id1|];
  }

  datatype Document = Document(customerId: string, documentType: string, storagePath: string, iv: Bytes, authTag: Bytes,
                               encryptedDek: Bytes, kekVersion: string, sizeBytes: nat, isActive: bool)

  datatype Access = Uploaded(id: string) | Decrypted(id: string) | Deactivated(id: string)

  datatype State = State(kms: Kms, objects: map<string, Bytes>, documents: map<string, Document>, log: seq<Access>)

  /** One upload; `documentId` is a new 36-character id. */
  datatype Upload = Upload(documentId: string, customerId: string, documentType: string, bytes: Bytes, random: Randomness)

  function Store(c: Cipher, v: State, u: Upload): (State, Result<(), VaultError>)
    requires v.kms.current in v.kms.keks
  {
    var path := StoragePath(u.customerId, u.documentType, u.documentId);
    var e := Encrypt(c, v.kms, u.bytes, u.random);
    var v := v.(objects := v.objects[path := e.ciphertext]);
    if u.bytes == [] then (v, Err(EmptyDocument))
    else
      var d := Document(u.customerId, u.documentType, path, e.iv, e.authTag, e.encryptedDek, e.kekVersion, |u.bytes|, true);
      (v.(documents := v.documents[u.documentId := d], log := v.log + [Uploaded(u.documentId)]), Ok(()))
  }

  function EnvelopeOf(d: Document, ciphertext: Bytes): Envelope {
    Envelope(ciphertext, d.iv, d.authTag, d.encryptedDek, d.kekVersion)
  }

  function Read(c: Cipher, v: State, id: string): Result<Bytes, VaultError> {
    if id !in v.documents then Err(DocumentNotFound)
    else if !v.documents[id].isActive then Err(AccessDenied)
    else if v.documents[id].storagePath !in v.objects then Err(NoObject)
    else Decrypt(c, v.kms, EnvelopeOf(v.documents[id], v.objects[v.documents[id].storagePath]))
  }

  /** Only a read that succeeds is logged. */
  function AfterRead(c: Cipher, v: State, id: string): State {
    if Read(c, v, id).Ok? then v.(log := v.log + [Decrypted(id)]) else v
  }

  function AfterDeactivation(v: State, id: string): State {
    if id !in v.documents then v
    else v.(documents := v.documents[id := v.documents[id].(isActive := false)], log := v.log + [Deactivated(id)])
  }

  // ---- Any history ----

  datatype Op = Put(upload: Upload) | Get(id: string) | Deactivate(id: string) | Rotate(newKek: Bytes)

  predicate WellFormedOp(op: Op) {
    match op
    case Put(u) => |u.documentId| == 36 && WellSized(u.random)
    case Rotate(kek) => |kek| == KEY_LENGTH
    case Get(_) => true
    case Deactivate(_) => true
  }

  function Perform(c: Cipher, v: State, op: Op): State
    requires ValidKms(v.kms)
  {
    match op
    case Put(u) => Store(c, v, u).0
    case Get(id) => AfterRead(c, v, id)
    case Deactivate(id) => AfterDeactivation(v, id)
    case Rotate(kek) => v.(kms := Rotated(v.kms, kek))
  }

  lemma PerformKeepsKms(c: Cipher, v: State, op: Op)
    requires ValidKms(v.kms) && WellFormedOp(op)
    ensures ValidKms(Perform(c, v, op).kms)
    ensures forall version :: version in v.kms.keks ==>
              version in Perform(c, v, op).kms.keks && Perform(c, v, op).kms.keks[version] == v.kms.keks[version]
  {
    if op.Rotate? {
      RotationIsFresh(v.kms, op.newKek);
    }
  }

  function Run(c: Cipher, v: State, ops: seq<Op>): (v': State)
    requires ValidKms(v.kms) && forall op :: op in ops ==> WellFormedOp(op)
    ensures ValidKms(v'.kms)
    decreases ops
  {
    if ops == [] then v
    else
      PerformKeepsKms(c, v, ops[0]);
      Run(c, Perform(c, v, ops[0]), ops[1..])
  }

  /** The document's bytes can be recovered from what is stored, whether or not access is still granted. */
  ghost predicate Keeps(c: Cipher, v: State, id: string, bytes: Bytes) {
    && ValidKms(v.kms) && |id| == 36
    && id in v.documents
    && var d := v.documents[id];
       && d.storagePath == StoragePath(d.customerId, d.documentType, id)
       && d.storagePath in v.objects
       && Decrypt(c, v.kms, EnvelopeOf(d, v.objects[d.storagePath])) == Ok(bytes)
  }

  lemma UploadKeeps(c: Cipher, v: State, u: Upload)
    requires Lawful(c) && ValidKms(v.kms) && WellFormedOp(Put(u)) && u.bytes != []
    ensures Keeps(c, Store(c, v, u).0, u.documentId, u.bytes) && Store(c, v, u).0.documents[u.documentId].isActive
  {
    DecryptUndoesEncrypt(c, v.kms, u.bytes, u.random);
  }

  lemma MoreKeysStillDecrypt(c: Cipher, k: Kms, k': Kms, e: Envelope)
    requires Decrypt(c, k, e).Ok?
    requires forall v :: v in k.keks ==> v in k'.keks && k'.keks[v] == k.keks[v]
    ensures Decrypt(c, k', e) == Decrypt(c, k, e)
  {}

  lemma OtherUploadKeepsObject(c: Cipher, v: State, u: Upload, id: string, bytes: Bytes)
    requires Keeps(c, v, id, bytes) && |u.documentId| == 36 && u.documentId != id
    ensures StoragePath(u.customerId, u.documentType, u.documentId) != v.documents[id].storagePath
  {
    var d := v.documents[id];
    if StoragePath(u.customerId, u.documentType, u.documentId) == d.storagePath {
      PathsDiffer(u.customerId, u.documentType, u.documentId, d.customerId, d.documentType, id);
    }
  }

  /** What recovering a document depends on: its record, its object, and the keys of the time. */
  lemma SameObjectKeeps(c: Cipher, v: State, v': State, id: string, bytes: Bytes)
    requires Keeps(c, v, id, bytes) && ValidKms(v'.kms)
    requires forall version :: version in v.kms.keks ==> version in v'.kms.keks && v'.kms.keks[version] == v.kms.keks[version]
    requires id in v'.documents && v'.documents[id] == v.documents[id].(isActive := v'.documents[id].isActive)
    requires v.documents[id].storagePath in v'.objects
    requires v'.objects[v.documents[id].storagePath] == v.objects[v.documents[id].storagePath]
    ensures Keeps(c, v', id, bytes)
  {
    hide StoragePath, ValidKms;
    var d := v.documents[id];
    MoreKeysStillDecrypt(c, v.kms, v'.kms, EnvelopeOf(d, v.objects[d.storagePath]));
    hide Decrypt;
  }

  lemma PerformKeeps(c: Cipher, v: State, op: Op, id: string, bytes: Bytes)
    requires Keeps(c, v, id, bytes) && WellFormedOp(op)
    requires op.Put? ==> op.upload.documentId != id
    ensures Keeps(c, Perform(c, v, op), id, bytes)
    ensures Perform(c, v, op).documents[id].isActive <==> v.documents[id].isActive && op != Deactivate(id)
  {
    hide Decrypt, Encrypt, StoragePath, ValidKms, Rotated, Read;
    PerformKeepsKms(c, v, op);
    if op.Put? {
      OtherUploadKeepsObject(c, v, op.upload, id, bytes);
    }
    SameObjectKeeps(c, v, Perform(c, v, op), id, bytes);
  }

  lemma {:induction false} RunKeeps(c: Cipher, v: State, ops: seq<Op>, id: string, bytes: Bytes)
    requires Keeps(c, v, id, bytes)
    requires forall op :: op in ops ==> WellFormedOp(op) && (op.Put? ==> op.upload.documentId != id)
    ensures Keeps(c, Run(c, v, ops), id, bytes)
    ensures Run(c, v, ops).documents[id].isActive <==> v.documents[id].isActive && Deactivate(id) !in ops
    decreases ops
  {
    if ops != [] {
      PerformKeeps(c, v, ops[0], id, bytes);
      RunKeeps(c, Perform(c, v, ops[0]), ops[1..], id, bytes);
      assert Deactivate(id) in ops <==> ops[0] == Deactivate(id) || Deactivate(id) in ops[1..];
      hide Keeps, Perform, WellFormedOp;
    }
  }

  /**
   After any history of other uploads, reads, key rotations and deactivations,
   reading an uploaded document yields exactly its bytes — unless it was itself
   deactivated, after which reading is refused for ever.
   */
  lemma VaultRoundTrip(c: Cipher, v: State, u: Upload, ops: seq<Op>)
    requires Lawful(c) && ValidKms(v.kms) && WellFormedOp(Put(u)) && u.bytes != []
    requires forall op :: op in ops ==> WellFormedOp(op) && (op.Put? ==> op.upload.documentId != u.documentId)
    ensures ValidKms(Store(c, v, u).0.kms)
    ensures Read(c, Run(c, Store(c, v, u).0, ops), u.documentId) ==
            if Deactivate(u.documentId) in ops then Err(AccessDenied) else Ok(u.bytes)
  {
    UploadKeeps(c, v, u);
    RunKeeps(c, Store(c, v, u).0, ops, u.documentId, u.bytes);
  }

  /** What the operations that succeeded have in common: one entry each, in order. */
  function Entries(c: Cipher, v: State, op: Op): seq<Access>
    requires ValidKms(v.kms)
  {
    match op
    case Put(u) => if u.bytes == [] then [] else [Uploaded(u.documentId)]
    case Get(id) => if Read(c, v, id).Ok? then [Decrypted(id)] else []
    case Deactivate(id) => if id in v.documents then [Deactivated(id)] else []
    case Rotate(_) => []
  }

  function Reads(log: seq<Access>, id: string): nat {
    if log == [] then 0 else Reads(log[..|log| - 1], id) + (if log[|log| - 1] == Decrypted(id) then 1 else 0)
  }

  function GrantedReads(c: Cipher, v: State, ops: seq<Op>, id: string): nat
    requires ValidKms(v.kms) && forall op :: op in ops ==> WellFormedOp(op)
    decreases ops
  {
    if ops == [] then 0
    else
      PerformKeepsKms(c, v, ops[0]);
      (if ops[0] == Get(id) && Read(c, v, id).Ok? then 1 else 0) + GrantedReads(c, Perform(c, v, ops[0]), ops[1..], id)
  }

  lemma ReadsSnoc(log: seq<Access>, a: Access, id: string)
    ensures Reads(log + [a], id) == Reads(log, id) + (if a == Decrypted(id) then 1 else 0)
  {
    assert (log + [a])[..|log|] == log;
  }

  lemma PerformLogs(c: Cipher, v: State, op: Op, id: string)
    requires ValidKms(v.kms)
    ensures Perform(c, v, op).log == v.log + Entries(c, v, op)
    ensures Reads(Perform(c, v, op).log, id) == Reads(v.log, id) + (if op == Get(id) && Read(c, v, id).Ok? then 1 else 0)
  {
    hide Read, Encrypt, ValidKms, StoragePath;
    assert Perform(c, v, op).log == v.log + Entries(c, v, op);
    hide Perform, Reads;
    var entries := Entries(c, v, op);
    if entries != [] {
      ReadsSnoc(v.log, entries[0], id);
    }
  }

  /** The access log counts a document's reads: every one that revealed its bytes, and no refused one. */
  lemma {:induction false} LogCountsReads(c: Cipher, v: State, ops: seq<Op>, id: string)
    requires ValidKms(v.kms) && forall op :: op in ops ==> WellFormedOp(op)
    ensures Reads(Run(c, v, ops).log, id) == Reads(v.log, id) + GrantedReads(c, v, ops, id)
    decreases ops
  {
    if ops != [] {
      PerformKeepsKms(c, v, ops[0]);
      PerformLogs(c, v, ops[0], id);
      hide Perform, Entries, Read, Reads, ValidKms;
      LogCountsReads(c, Perform(c, v, ops[0]), ops[1..], id);
    }
  }
}
