/**
 The vault as the program runs it: byte buffers, a data key zeroed in place
 after every use, a store that copies, and documents that keep references to
 the buffers encryption returned. Every method is proved against module Vault.
 */
module VaultObjects {
  import opened Common
  import opened Vault
  import opened Decimals

  type Buffer = array<byte>

  method BufferOf(bytes: Bytes) returns (b: Buffer)
    ensures fresh(b) && b[..] == bytes
  {
    b := new byte[|bytes|](i requires 0 <= i < |bytes| => bytes[i]);
  }

  method Zero(b: Buffer)
    modifies b
    ensures forall i :: 0 <= i < b.Length ==> b[i] == 0
  {
    for i := 0 to b.Length
      invariant forall j :: 0 <= j < i ==> b[j] == 0
    {
      b[i] := 0;
    }
  }

  class InMemoryKms {
    const cipher: Cipher
    var keksByVersion: map<string, Buffer>
    var currentVersion: string

    function Value(): Kms
      reads this, keksByVersion.Values
    {
      Kms(map v | v in keksByVersion :: keksByVersion[v][..], currentVersion)
    }

    ghost predicate Valid()
      reads this, keksByVersion.Values
    {
      ValidKms(Value())
    }

    constructor (cipher: Cipher, kek: Bytes)
      requires |kek| == KEY_LENGTH
      ensures Valid() && this.cipher == cipher && Value() == Kms(map["v1" := kek], "v1")
      ensures fresh(keksByVersion.Values)
    {
      var b := BufferOf(kek);
      this.cipher := cipher;
      keksByVersion, currentVersion := map["v1" := b], "v1";
      new;
      assert keksByVersion["v1"] == b;
      assert Value().keks == map["v1" := kek];
      assert VersionName(1) == "v1";
    }

    method WrapDek(dek: Buffer, iv: Bytes) returns (encryptedDek: Buffer, kekVersion: string)
      requires Valid()
      ensures fresh(encryptedDek) && kekVersion == currentVersion
      ensures encryptedDek[..] == Wrap(cipher, Value().keks[currentVersion], dek[..], iv)
    {
      assert currentVersion in Value().keks;
      var kek := keksByVersion[currentVersion];
      var s := cipher.seal(kek[..], iv, dek[..]);
      encryptedDek := BufferOf(iv + s.tag + s.ciphertext);
      kekVersion := currentVersion;
    }

    /** The unwrapped key is a buffer nobody else holds, so its user may destroy it. */
    method UnwrapDek(encryptedDek: Buffer, kekVersion: string) returns (r: Result<Buffer, VaultError>)
      ensures r.Ok? ==> fresh(r.value)
      ensures kekVersion !in keksByVersion ==> r == Err(NoKey)
      ensures kekVersion in keksByVersion ==>
                var dek := Unwrap(cipher, keksByVersion[kekVersion][..], encryptedDek[..]);
                if dek == None then r == Err(NotAuthentic) else r.Ok? && r.value[..] == dek.value
    {
      if kekVersion !in keksByVersion {
        return Err(NoKey);
      }
      if encryptedDek.Length < IV_LENGTH + TAG_LENGTH {
        return Err(NotAuthentic);
      }
      var all := encryptedDek[..];
      var plain := cipher.open(keksByVersion[kekVersion][..], all[..IV_LENGTH], all[IV_LENGTH..IV_LENGTH + TAG_LENGTH], all[IV_LENGTH + TAG_LENGTH..]);
      if plain == None {
        return Err(NotAuthentic);
      }
      var dek := BufferOf(plain.value);
      return Ok(dek);
    }

    method RotateKek(newKek: Bytes) returns (version: string)
      requires Valid() && |newKek| == KEY_LENGTH
      modifies this
      ensures Valid() && Value() == Rotated(old(Value()), newKek) && version == currentVersion
      ensures fresh(keksByVersion.Values - old(keksByVersion.Values))
      ensures version == "v" + Decimal(|old(keksByVersion)| + 1) && version !in old(keksByVersion)
      ensures version in keksByVersion && keksByVersion[version][..] == newKek
      ensures forall v :: v in old(keksByVersion) ==> v in keksByVersion && keksByVersion[v] == old(keksByVersion)[v]
    {
      NextVersionName(keksByVersion);
      hide ValidKms, VersionName, Decimal, Rotated;
      ghost var before := Value();
      RotationIsFresh(before, newKek);
      assert before.keks.Keys == keksByVersion.Keys;
      KeyCount(before.keks, keksByVersion);
      assert Rotated(before, newKek) == Kms(before.keks[VersionName(|keksByVersion| + 1) := newKek], VersionName(|keksByVersion| + 1)) by {
        RotatedIs(before, newKek);
      }
      version := VersionName(|keksByVersion| + 1);
      var b := BufferOf(newKek);
      keksByVersion := keksByVersion[version := b];
      currentVersion := version;
      assert keksByVersion[version] == b;
      assert Value().keks == before.keks[version := newKek];
    }
  }

  lemma NextVersionName<V>(m: map<string, V>)
    ensures VersionName(|m| + 1) == "v" + Decimal(|m| + 1)
  {}

  lemma RotatedIs(k: Kms, newKek: Bytes)
    ensures var version := VersionName(|k.keks| + 1);
            Rotated(k, newKek) == Kms(k.keks[version := newKek], version)
  {}

  lemma KeyCount<V, W>(m: map<string, V>, n: map<string, W>)
    requires m.Keys == n.Keys
    ensures |m| == |n|
  {
    assert |m| == |m.Keys| && |n| == |n.Keys|;
  }

  datatype EnvelopeBuffers = EnvelopeBuffers(ciphertext: Buffer, iv: Buffer, authTag: Buffer, encryptedDek: Buffer, kekVersion: string)

  class EncryptionService {
    const kms: InMemoryKms

    constructor (kms: InMemoryKms)
      ensures this.kms == kms
    {
      this.kms := kms;
    }

    /** All four buffers still hold the envelope after the data key has been zeroed. */
    method EncryptDocument(plaintext: Buffer, r: Randomness) returns (e: EnvelopeBuffers, ghost dek: Buffer)
      requires kms.Valid() && |r.dek| == KEY_LENGTH
      ensures fresh({e.ciphertext, e.iv, e.authTag, e.encryptedDek})
      ensures Envelope(e.ciphertext[..], e.iv[..], e.authTag[..], e.encryptedDek[..], e.kekVersion)
              == Encrypt(kms.cipher, kms.Value(), plaintext[..], r)
      ensures fresh(dek) && forall i :: 0 <= i < dek.Length ==> dek[i] == 0
      ensures e.iv[..] == r.iv && e.kekVersion == kms.currentVersion
      ensures Lawful(kms.cipher) && |r.dek| == 32 && |r.iv| == 12 && |r.wrapIv| == 12 ==>
                OpensWith(kms.cipher, kms.Value(), Envelope(e.ciphertext[..], e.iv[..], e.authTag[..], e.encryptedDek[..], e.kekVersion), r.dek, plaintext[..])
    {
      EncryptOpens(kms.cipher, kms.Value(), plaintext[..], r);
      hide Lawful, OpensWith;
      var key := BufferOf(r.dek);
      dek := key;
      var s := kms.cipher.seal(key[..], r.iv, plaintext[..]);
      var ciphertext := BufferOf(s.ciphertext);
      var iv := BufferOf(r.iv);
      var authTag := BufferOf(s.tag);
      var encryptedDek, kekVersion := kms.WrapDek(key, r.wrapIv);
      e := EnvelopeBuffers(ciphertext, iv, authTag, encryptedDek, kekVersion);
      Zero(key);
    }

    /** On every way out the unwrapped data key has been zeroed, and no other buffer has changed. */
    method DecryptDocument(ciphertext: Bytes, iv: Buffer, authTag: Buffer, encryptedDek: Buffer, kekVersion: string)
      returns (r: Result<Bytes, VaultError>, ghost dek: Option<Buffer>)
      ensures r == Decrypt(kms.cipher, kms.Value(), Envelope(ciphertext, iv[..], authTag[..], encryptedDek[..], kekVersion))
      ensures dek.Some? ==> fresh(dek.value) && forall i :: 0 <= i < dek.value.Length ==> dek.value[i] == 0
      ensures r.Ok? ==> dek.Some?
    {
      dek := None;
      var key := kms.UnwrapDek(encryptedDek, kekVersion);
      if key.Err? {
        return Err(key.error), None;
      }
      dek := Some(key.value);
      if key.value.Length != KEY_LENGTH {
        Zero(key.value);
        return Err(BadKeyLength), dek;
      }
      var plain := kms.cipher.open(key.value[..], iv[..], authTag[..], ciphertext);
      Zero(key.value);
      if plain == None {
        return Err(NotAuthentic), dek;
      }
      return Ok(plain.value), dek;
    }
  }

  class InMemoryObjectStore {
    var objects: map<string, Buffer>

    function Value(): map<string, Bytes>
      reads this, objects.Values
    {
      map p | p in objects :: objects[p][..]
    }

    constructor ()
      ensures objects == map[]
    {
      objects := map[];
    }

    /** The store keeps a copy of its own. */
    method PutObject(path: string, data: Buffer)
      modifies this
      ensures Value() == old(Value())[path := data[..]]
      ensures fresh(objects.Values - old(objects.Values))
    {
      ghost var before := Value();
      var copy := BufferOf(data[..]);
      objects := objects[path := copy];
      assert objects[path] == copy;
      assert Value() == before[path := data[..]];
    }

    method GetObject(path: string) returns (r: Option<Buffer>)
      ensures r.Some? <==> path in objects
      ensures r.Some? ==> fresh(r.value) && r.value[..] == objects[path][..]
    {
      if path !in objects {
        return None;
      }
      var copy := BufferOf(objects[path][..]);
      return Some(copy);
    }
  }

  /** Document metadata, holding the envelope's own buffers. */
  datatype Record = Record(customerId: string, documentType: string, storagePath: string, iv: Buffer, authTag: Buffer,
                           encryptedDek: Buffer, kekVersion: string, sizeBytes: nat, isActive: bool)

  function Buffers(d: Record): set<Buffer> {
    {d.iv, d.authTag, d.encryptedDek}
  }

  function DocumentOf(d: Record): Document
    reads Buffers(d)
  {
    Document(d.customerId, d.documentType, d.storagePath, d.iv[..], d.authTag[..], d.encryptedDek[..], d.kekVersion, d.sizeBytes, d.isActive)
  }

  lemma StoreParts(c: Cipher, v: State, u: Upload)
    requires v.kms.current in v.kms.keks
    ensures var path, e := StoragePath(u.customerId, u.documentType, u.documentId), Encrypt(c, v.kms, u.bytes, u.random);
            var stored := v.(objects := v.objects[path := e.ciphertext]);
            var d := Document(u.customerId, u.documentType, path, e.iv, e.authTag, e.encryptedDek, e.kekVersion, |u.bytes|, true);
            Store(c, v, u) == if u.bytes == [] then (stored, Err(EmptyDocument))
                              else (stored.(documents := v.documents[u.documentId := d], log := v.log + [Uploaded(u.documentId)]), Ok(()))
  {}

  class DocumentStorageService {
    const encryption: EncryptionService
    const store: InMemoryObjectStore
    var records: map<string, Record>
    var log: seq<Access>

    ghost function Held(): set<Buffer>
      reads this
    {
      set id, b | id in records && b in Buffers(records[id]) :: b
    }

    ghost function Documents(): map<string, Document>
      reads this, Held()
    {
      map id | id in records :: DocumentOf(records[id])
    }

    twostate lemma RecordsUntouched()
      requires records == old(records)
      requires forall b :: b in old(Held()) ==> b[..] == old(b[..])
      ensures Documents() == old(Documents())
    {
      forall id | id in records ensures DocumentOf(records[id]) == old(DocumentOf(records[id])) {
        forall b | b in Buffers(records[id]) ensures b in old(Held()) {}
      }
    }

    ghost function Value(): State
      reads this, encryption.kms, encryption.kms.keksByVersion.Values, store, store.objects.Values, Held()
    {
      State(encryption.kms.Value(), store.Value(), Documents(), log)
    }

    constructor (encryption: EncryptionService, store: InMemoryObjectStore)
      ensures this.encryption == encryption && this.store == store && records == map[] && log == []
    {
      this.encryption, this.store := encryption, store;
      records, log := map[], [];
    }

    /** Storage comes before metadata: the blob is in the store before any record refers to it. */
    method SealAndPut(path: string, fileBytes: Buffer, random: Randomness) returns (e: EnvelopeBuffers)
      requires encryption.kms.Valid() && |random.dek| == KEY_LENGTH
      modifies store
      ensures encryption.kms.Valid() && encryption.kms.Value() == old(encryption.kms.Value())
      ensures Envelope(e.ciphertext[..], e.iv[..], e.authTag[..], e.encryptedDek[..], e.kekVersion)
              == Encrypt(encryption.kms.cipher, old(encryption.kms.Value()), fileBytes[..], random)
      ensures Value() == old(Value()).(objects := old(Value()).objects[path := e.ciphertext[..]])
      ensures e.iv[..] == random.iv
      ensures Lawful(encryption.kms.cipher) && |random.dek| == 32 && |random.iv| == 12 && |random.wrapIv| == 12 ==>
                OpensWith(encryption.kms.cipher, encryption.kms.Value(),
                          Envelope(e.ciphertext[..], e.iv[..], e.authTag[..], e.encryptedDek[..], e.kekVersion), random.dek, fileBytes[..])
    {
      hide ValidKms, Encrypt, Documents;
      ghost var dek;
      e, dek := encryption.EncryptDocument(fileBytes, random);
      store.PutObject(path, e.ciphertext);
      RecordsUntouched();
    }

    method SaveRecord(documentId: string, d: Record, entry: Access)
      modifies this
      ensures Value() == old(Value()).(documents := old(Value()).documents[documentId := DocumentOf(d)],
                                       log := old(Value()).log + [entry])
      ensures records == old(records)[documentId := d] && log == old(log) + [entry]
    {
      ghost var before := Value();
      records := records[documentId := d];
      log := log + [entry];
      assert Value().documents == before.documents[documentId := DocumentOf(d)];
    }

    method UploadDocument(customerId: string, documentType: string, fileBytes: Buffer, documentId: string, random: Randomness)
      returns (r: Result<(), VaultError>)
      requires encryption.kms.Valid() && |random.dek| == KEY_LENGTH
      modifies this, store
      ensures (Value(), r) == Store(encryption.kms.cipher, old(Value()), Upload(documentId, customerId, documentType, fileBytes[..], random))
      ensures encryption.kms.Valid()
      ensures r == if fileBytes.Length == 0 then Err(EmptyDocument) else Ok(())
      ensures r.Ok? ==>
                && documentId in records
                && var d := records[documentId];
                && d.customerId == customerId && d.documentType == documentType && d.sizeBytes == fileBytes.Length && d.isActive
                && d.storagePath == "/development/" + customerId + "/" + documentType + "/" + documentId + ".enc"
                && d.iv[..] == random.iv && log == old(log) + [Uploaded(documentId)]
      ensures r.Ok? && Lawful(encryption.kms.cipher) && |random.dek| == 32 && |random.iv| == 12 && |random.wrapIv| == 12 ==>
                && records[documentId].storagePath in store.Value()
                && OpensWith(encryption.kms.cipher, encryption.kms.Value(),
                             EnvelopeOf(DocumentOf(records[documentId]), store.Value()[records[documentId].storagePath]), random.dek, fileBytes[..])
    {
      PathIs(customerId, documentType, documentId);
      assert encryption.kms.Value().current in encryption.kms.Value().keks;
      StoreParts(encryption.kms.cipher, Value(), Upload(documentId, customerId, documentType, fileBytes[..], random));
      hide ValidKms, Encrypt, StoragePath, Store, Value;
      var path := StoragePath(customerId, documentType, documentId);
      var e := SealAndPut(path, fileBytes, random);
      if fileBytes.Length <= 0 {
        return Err(EmptyDocument);
      }
      var d := Record(customerId, documentType, path, e.iv, e.authTag, e.encryptedDek, e.kekVersion, fileBytes.Length, true);
      SaveRecord(documentId, d, Uploaded(documentId));
      return Ok(());
    }

    method GetDocument(documentId: string) returns (r: Result<Bytes, VaultError>)
      modifies this
      ensures r == Read(encryption.kms.cipher, old(Value()), documentId)
      ensures Value() == AfterRead(encryption.kms.cipher, old(Value()), documentId)
      ensures documentId !in records ==> r == Err(DocumentNotFound)
      ensures documentId in records && !records[documentId].isActive ==> r == Err(AccessDenied)
      ensures log == old(log) + (if r.Ok? then [Decrypted(documentId)] else [])
    {
      hide ValidKms, Decrypt;
      ghost var before, c := Value(), encryption.kms.cipher;
      if documentId !in records {
        return Err(DocumentNotFound);
      }
      var d := records[documentId];
      assert before.documents[documentId] == DocumentOf(d);
      if !d.isActive {
        return Err(AccessDenied);
      }
      hide Documents;
      var ciphertext := store.GetObject(d.storagePath);
      if ciphertext == None {
        RecordsUntouched();
        return Err(NoObject);
      }
      r := Opened(d, ciphertext.value);
      RecordsUntouched();
      assert r == Read(c, before, documentId) by {
        assert before.objects[d.storagePath] == ciphertext.value[..];
      }
      hide Read;
      if r.Ok? {
        AddToLog(Decrypted(documentId));
      }
    }

    method AddToLog(entry: Access)
      modifies this
      ensures Value() == old(Value()).(log := old(Value()).log + [entry])
      ensures records == old(records) && log == old(log) + [entry]
    {
      hide Documents;
      log := log + [entry];
      RecordsUntouched();
    }

    method Opened(d: Record, ciphertext: Buffer) returns (r: Result<Bytes, VaultError>)
      ensures r == Decrypt(encryption.kms.cipher, encryption.kms.Value(), EnvelopeOf(DocumentOf(d), ciphertext[..]))
    {
      hide Decrypt;
      ghost var dek;
      r, dek := encryption.DecryptDocument(ciphertext[..], d.iv, d.authTag, d.encryptedDek, d.kekVersion);
    }

    method DeactivateDocument(documentId: string) returns (r: Result<(), VaultError>)
      modifies this
      ensures Value() == AfterDeactivation(old(Value()), documentId)
      ensures r == if documentId in old(records) then Ok(()) else Err(DocumentNotFound)
      ensures r.Ok? ==> records == old(records)[documentId := old(records)[documentId].(isActive := false)] && log == old(log) + [Deactivated(documentId)]
    {
      if documentId !in records {
        return Err(DocumentNotFound);
      }
      SaveRecord(documentId, records[documentId].(isActive := false), Deactivated(documentId));
      return Ok(());
    }
  }
}
