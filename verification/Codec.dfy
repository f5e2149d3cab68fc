/** The chunk codec of internal/chunk/chunk.go. Cryptography is symbolic: a
    ciphertext opens only under the key and nonce that sealed it, a signature
    verifies only for its signer and the exact signed fields, and the two ends of
    a key agreement derive the same key. */
module Codec {
  import opened Basics
  import opened Pieces

  const CHUNK_SIZE: nat := 1024

  datatype PrivateKey = PrivateKey(id: nat)
  datatype PublicKey = PublicKey(id: nat)
  datatype AesKey = Shared(ends: set<nat>) | Random(id: nat)
  datatype Cipher = Sealed(plain: seq<byte>, key: AesKey, nonce: nat) | Corrupt
  /** The fields an envelope signature covers. */
  datatype Body = Body(messageId: string, senderId: string, recipientId: string,
                       totalChunks: int, chunkIndex: int, ciphertext: Cipher, nonce: nat,
                       ephemeralKey: Option<PublicKey>)
  datatype Signature = Signature(signer: PrivateKey, signed: Body) | Forged
  datatype Envelope = Envelope(body: Body, signature: Signature)

  function PublicOf(key: PrivateKey): PublicKey {
    PublicKey(key.id)
  }

  function DeriveSharedKey(own: PrivateKey, other: PublicKey): AesKey {
    Shared({own.id, other.id})
  }

  predicate Verifies(env: Envelope, verifyKey: PublicKey) {
    env.signature.Signature? && PublicOf(env.signature.signer) == verifyKey && env.signature.signed == env.body
  }

  function DecryptAES(cipher: Cipher, nonce: nat, key: AesKey): Option<seq<byte>> {
    if cipher.Sealed? && cipher.key == key && cipher.nonce == nonce then Some(cipher.plain) else None
  }

  /** Everything the two senders share. `nonces` are the random nonces drawn and
      `ephemeral` is absent in the file variant. */
  datatype Job = Job(messageId: string, senderId: string, recipientId: string, key: AesKey,
                     ephemeral: Option<PublicKey>, signer: PrivateKey, nonces: nat -> nat)

  function Seal(job: Job, total: nat, i: nat, piece: seq<byte>): Envelope {
    var body := Body(job.messageId, job.senderId, job.recipientId, total, i,
                     Sealed(piece, job.key, job.nonces(i)), job.nonces(i), job.ephemeral);
    Envelope(body, Signature(job.signer, body))
  }

  /** The envelopes of a list of pieces. */
  function Envelopes(job: Job, pieces: seq<seq<byte>>): seq<Envelope> {
    seq(|pieces|, i requires 0 <= i < |pieces| => Seal(job, |pieces|, i, pieces[i]))
  }

  /** A file is cut like a message, except that an empty file is one empty piece. */
  function FilePieces(plaintext: seq<byte>): seq<seq<byte>> {
    if plaintext == [] then [[]] else Split(plaintext, CHUNK_SIZE)
  }

  method SplitAndEncrypt(messageId: string, senderId: string, recipientId: string, plaintext: seq<byte>,
                         recipientKey: PublicKey, ephemeral: PrivateKey, signer: PrivateKey, nonces: nat -> nat)
    returns (envelopes: seq<Envelope>)
    ensures |envelopes| == Count(|plaintext|, 1024)
    ensures forall i :: 0 <= i < |envelopes| ==>
              && envelopes[i].body == Body(messageId, senderId, recipientId, |envelopes|, i,
                                           Sealed(Piece(plaintext, 1024, i), Shared({ephemeral.id, recipientKey.id}),
                                                  nonces(i)),
                                           nonces(i), Some(PublicKey(ephemeral.id)))
              && envelopes[i].signature == Signature(signer, envelopes[i].body)
    ensures envelopes == Envelopes(MessageJob(messageId, senderId, recipientId, recipientKey, ephemeral, signer,
                                              nonces),
                                   Split(plaintext, CHUNK_SIZE))
  {
    var aesKey := DeriveSharedKey(ephemeral, recipientKey);
    var total := (|plaintext| + CHUNK_SIZE - 1) / CHUNK_SIZE;
    var job := Job(messageId, senderId, recipientId, aesKey, Some(PublicOf(ephemeral)), signer, nonces);
    ghost var all := Envelopes(job, Split(plaintext, CHUNK_SIZE));
    envelopes := [];
    var i := 0;
    while i < total
      invariant 0 <= i <= total == |all|
      invariant envelopes == all[..i]
    {
      CountBounds(|plaintext|, CHUNK_SIZE, i);
      var start := i * CHUNK_SIZE;
      var end := start + CHUNK_SIZE;
      if end > |plaintext| {
        end := |plaintext|;
      }
      envelopes := envelopes + [Seal(job, total, i, plaintext[start..end])];
      assert envelopes[i] == all[i];
      i := i + 1;
    }
  }

  function MessageJob(messageId: string, senderId: string, recipientId: string, recipientKey: PublicKey,
                      ephemeral: PrivateKey, signer: PrivateKey, nonces: nat -> nat): Job {
    Job(messageId, senderId, recipientId, DeriveSharedKey(ephemeral, recipientKey), Some(PublicOf(ephemeral)), signer,
        nonces)
  }

  function FileJob(fileId: string, senderId: string, aesKey: AesKey, signer: PrivateKey, nonces: nat -> nat): Job {
    Job(fileId, senderId, "", aesKey, None, signer, nonces)
  }

  method SplitAndEncryptFile(fileId: string, senderId: string, plaintext: seq<byte>, aesKey: AesKey,
                             signer: PrivateKey, nonces: nat -> nat)
    returns (envelopes: seq<Envelope>)
    ensures |envelopes| == Max(1, Count(|plaintext|, 1024))
    ensures forall i :: 0 <= i < |envelopes| ==>
              var piece := if plaintext == [] then [] else plaintext[i * 1024..Min(i * 1024 + 1024, |plaintext|)];
              && envelopes[i].body == Body(fileId, senderId, "", |envelopes|, i, Sealed(piece, aesKey, nonces(i)),
                                           nonces(i), None)
              && envelopes[i].signature == Signature(signer, envelopes[i].body)
    ensures envelopes == Envelopes(FileJob(fileId, senderId, aesKey, signer, nonces), FilePieces(plaintext))
    ensures |envelopes| >= 1
  {
    var total := Max(1, (|plaintext| + CHUNK_SIZE - 1) / CHUNK_SIZE);
    var job := Job(fileId, senderId, "", aesKey, None, signer, nonces);
    ghost var all := Envelopes(job, FilePieces(plaintext));
    PieceShape(plaintext, CHUNK_SIZE, 0);
    envelopes := [];
    var i := 0;
    while i < total
      invariant 0 <= i <= total == |all|
      invariant envelopes == all[..i]
    {
      CountBounds(|plaintext|, CHUNK_SIZE, i);
      var start := i * CHUNK_SIZE;
      var end := start + CHUNK_SIZE;
      if end > |plaintext| {
        end := |plaintext|;
      }
      envelopes := envelopes + [Seal(job, total, i, plaintext[start..end])];
      assert envelopes[i] == all[i];
      i := i + 1;
    }
  }

  // ---- Assembly ----

  datatype Chunk = Chunk(index: int, data: seq<byte>)

  ghost predicate Ordered(chunks: seq<Chunk>) {
    forall i, j :: 0 <= i < j < |chunks| ==> chunks[i].index <= chunks[j].index
  }

  function Data(chunks: seq<Chunk>): seq<seq<byte>> {
    seq(|chunks|, i requires 0 <= i < |chunks| => chunks[i].data)
  }

  predicate Opens(env: Envelope, key: AesKey) {
    DecryptAES(env.body.ciphertext, env.body.nonce, key).Some?
  }

  function Open(env: Envelope, key: AesKey): Chunk
    requires Opens(env, key)
  {
    Chunk(env.body.chunkIndex, DecryptAES(env.body.ciphertext, env.body.nonce, key).value)
  }

  function OpenAll(envs: seq<Envelope>, key: AesKey): seq<Chunk>
    requires forall env <- envs :: Opens(env, key)
  {
    seq(|envs|, i requires 0 <= i < |envs| => Open(envs[i], key))
  }

  /** What assembling under a key may return: an error unless every envelope is
      signed by the sender and opens, and otherwise the data of some index-ordered
      arrangement of the opened chunks (the sort is not stable). */
  ghost predicate Assembles(envs: seq<Envelope>, key: AesKey, verifyKey: PublicKey, result: Option<seq<byte>>) {
    && (result.Some? <==> envs != [] && forall env <- envs :: Verifies(env, verifyKey) && Opens(env, key))
    && (result.Some? ==>
          exists order: seq<Chunk> ::
            && Ordered(order)
            && multiset(order) == multiset(OpenAll(envs, key))
            && result.value == Flatten(Data(order)))
  }

  /** Insertion of one chunk into an ordered list. */
  method InsertByIndex(chunks: seq<Chunk>, c: Chunk) returns (out: seq<Chunk>)
    requires Ordered(chunks)
    ensures Ordered(out)
    ensures multiset(out) == multiset(chunks) + multiset{c}
  {
    var i := |chunks|;
    while i > 0 && chunks[i-1].index > c.index
      invariant 0 <= i <= |chunks|
      invariant forall j :: i <= j < |chunks| ==> chunks[j].index > c.index
    {
      i := i - 1;
    }
    out := chunks[..i] + [c] + chunks[i..];
    InsertAt(chunks, i, c);
    InsertKeepsOrder(chunks, c, i);
  }

  lemma {:induction false} InsertKeepsOrder(chunks: seq<Chunk>, c: Chunk, i: nat)
    requires Ordered(chunks)
    requires i <= |chunks|
    requires i > 0 ==> chunks[i-1].index <= c.index
    requires forall j :: i <= j < |chunks| ==> chunks[j].index > c.index
    ensures Ordered(chunks[..i] + [c] + chunks[i..])
  {
    var out := chunks[..i] + [c] + chunks[i..];
    forall a, b | 0 <= a < b < |out|
      ensures out[a].index <= out[b].index
    {
      assert a < i ==> chunks[a].index <= c.index;
      assert b > i ==> out[b] == chunks[b-1];
    }
  }

  /** sort.Slice by index: any ordered permutation. */
  method SortByIndex(chunks: seq<Chunk>) returns (order: seq<Chunk>)
    ensures Ordered(order)
    ensures multiset(order) == multiset(chunks)
  {
    order := [];
    var i := 0;
    while i < |chunks|
      invariant 0 <= i <= |chunks|
      invariant Ordered(order)
      invariant multiset(order) == multiset(chunks[..i])
    {
      assert chunks[..i+1] == chunks[..i] + [chunks[i]];
      order := InsertByIndex(order, chunks[i]);
      i := i + 1;
    }
    assert chunks[..i] == chunks;
  }

  /** The verify, decrypt, sort and concatenate passes common to both variants. */
  method AssembleWithKey(envs: seq<Envelope>, key: AesKey, verifyKey: PublicKey) returns (result: Option<seq<byte>>)
    ensures result.Some? ==> forall env <- envs ::
              && env.signature.Signature? && PublicKey(env.signature.signer.id) == verifyKey
              && env.signature.signed == env.body
    ensures Assembles(envs, key, verifyKey, result)
  {
    if |envs| == 0 {
      return None;
    }
    var i := 0;
    while i < |envs|
      invariant 0 <= i <= |envs|
      invariant forall env <- envs[..i] :: Verifies(env, verifyKey)
    {
      if !Verifies(envs[i], verifyKey) {
        return None;
      }
      i := i + 1;
    }
    assert envs[..i] == envs;
    var chunks: seq<Chunk> := [];
    i := 0;
    while i < |envs|
      invariant 0 <= i <= |envs|
      invariant forall env <- envs[..i] :: Opens(env, key)
      invariant chunks == OpenAll(envs[..i], key)
    {
      var plaintext := DecryptAES(envs[i].body.ciphertext, envs[i].body.nonce, key);
      if plaintext.None? {
        assert !Opens(envs[i], key) && envs[i] in envs;
        return None;
      }
      chunks := chunks + [Chunk(envs[i].body.chunkIndex, plaintext.value)];
      i := i + 1;
    }
    assert envs[..i] == envs;
    var order := SortByIndex(chunks);
    var buffer := Concatenate(Data(order));
    result := Some(buffer);
  }

  method AssembleAndDecrypt(envs: seq<Envelope>, own: PrivateKey, verifyKey: PublicKey)
    returns (result: Option<seq<byte>>)
    ensures envs == [] || envs[0].body.ephemeralKey.None? ==> result == None
    ensures envs != [] && envs[0].body.ephemeralKey.Some? ==>
              Assembles(envs, DeriveSharedKey(own, envs[0].body.ephemeralKey.value), verifyKey, result)
    ensures result.Some? ==> forall env <- envs ::
              && env.signature.Signature? && PublicKey(env.signature.signer.id) == verifyKey
              && env.signature.signed == env.body
  {
    if |envs| == 0 || envs[0].body.ephemeralKey.None? {
      return None;
    }
    result := AssembleWithKey(envs, DeriveSharedKey(own, envs[0].body.ephemeralKey.value), verifyKey);
  }

  method AssembleAndDecryptFile(envs: seq<Envelope>, aesKey: AesKey, verifyKey: PublicKey)
    returns (result: Option<seq<byte>>)
    ensures result.Some? ==> forall env <- envs ::
              && env.signature.Signature? && PublicKey(env.signature.signer.id) == verifyKey
              && env.signature.signed == env.body
    ensures Assembles(envs, aesKey, verifyKey, result)
  {
    result := AssembleWithKey(envs, aesKey, verifyKey);
  }

  // ---- Round trip ----

  /** Chunk i of a list of pieces, before any reordering. */
  function Numbered(pieces: seq<seq<byte>>): seq<Chunk> {
    seq(|pieces|, i requires 0 <= i < |pieces| => Chunk(i, pieces[i]))
  }

  /** An ordered permutation of consecutively numbered chunks is that list. */
  lemma {:induction false} OrderIsUnique(pieces: seq<seq<byte>>, order: seq<Chunk>)
    requires Ordered(order)
    requires multiset(order) == multiset(Numbered(pieces))
    ensures order == Numbered(pieces)
  {
    var want := Numbered(pieces);
    SameMultiset(order, want);
    if order != [] {
      var n := |order| - 1;
      LastIsGreatest(pieces, order);
      DropLast(order, want);
      assert want[..n] == Numbered(pieces[..n]);
      OrderIsUnique(pieces[..n], order[..n]);
    }
  }

  lemma {:induction false} LastIsGreatest(pieces: seq<seq<byte>>, order: seq<Chunk>)
    requires Ordered(order)
    requires order != [] && |order| == |pieces|
    requires multiset(order) == multiset(Numbered(pieces))
    ensures order[|order|-1] == Numbered(pieces)[|order|-1]
  {
    var want := Numbered(pieces);
    var n := |order| - 1;
    SameMultiset(order, want);
    assert want[n] in order && order[n] in want;
    var k :| 0 <= k < |order| && order[k] == want[n];
    var j :| 0 <= j < |want| && want[j] == order[n];
  }

  /** Verification and decryption succeed on a permutation of honest envelopes and
      open exactly the numbered pieces. */
  lemma {:induction false} HonestOpen(job: Job, pieces: seq<seq<byte>>, envs: seq<Envelope>)
    requires multiset(envs) == multiset(Envelopes(job, pieces))
    ensures forall env <- envs :: Verifies(env, PublicOf(job.signer)) && Opens(env, job.key)
    ensures forall env <- envs :: env.body.ephemeralKey == job.ephemeral
  {
    var all := Envelopes(job, pieces);
    forall env | env in envs
      ensures exists i :: 0 <= i < |all| && env == all[i]
    {
      assert env in multiset(envs);
      assert env in multiset(all);
    }
  }

  lemma {:induction false} OpenAllPermutes(envs: seq<Envelope>, others: seq<Envelope>, key: AesKey)
    requires multiset(envs) == multiset(others)
    requires forall env <- envs :: Opens(env, key)
    requires forall env <- others :: Opens(env, key)
    ensures multiset(OpenAll(envs, key)) == multiset(OpenAll(others, key))
  {
    SameMultiset(envs, others);
    if envs != [] {
      assert envs[0] in others;
      var k :| 0 <= k < |others| && others[k] == envs[0];
      var rest := others[..k] + others[k+1..];
      RemoveAt(others, k);
      RemoveAt(envs, 0);
      assert envs[..0] + envs[1..] == envs[1..];
      assert multiset(envs[1..]) == multiset(envs) - multiset{envs[0]} == multiset(others) - multiset{envs[0]} ==
             multiset(rest);
      OpenAllPermutes(envs[1..], rest, key);
      OpenAllSplit(others, k, key);
      OpenAllSplit(envs, 0, key);
    }
  }

  lemma {:induction false} OpenAllSplit(envs: seq<Envelope>, k: nat, key: AesKey)
    requires k < |envs|
    requires forall env <- envs :: Opens(env, key)
    ensures multiset(OpenAll(envs, key)) ==
            multiset(OpenAll(envs[..k] + envs[k+1..], key)) + multiset{Open(envs[k], key)}
  {
    var all := OpenAll(envs, key);
    RemoveAt(all, k);
    assert OpenAll(envs[..k] + envs[k+1..], key) == all[..k] + all[k+1..];
  }

  /** Assembling any permutation of a sender's envelopes gives the concatenated
      pieces, and an error only when there are none. */
  lemma {:induction false} AssembleHonest(job: Job, pieces: seq<seq<byte>>, envs: seq<Envelope>,
                                        result: Option<seq<byte>>)
    requires multiset(envs) == multiset(Envelopes(job, pieces))
    requires Assembles(envs, job.key, PublicOf(job.signer), result)
    ensures result == if pieces == [] then None else Some(Flatten(pieces))
  {
    var all := Envelopes(job, pieces);
    assert |envs| == |multiset(envs)| == |multiset(all)| == |all|;
    HonestOpen(job, pieces, envs);
    HonestOpen(job, pieces, all);
    if pieces != [] {
      var order: seq<Chunk> :|
        Ordered(order) && multiset(order) == multiset(OpenAll(envs, job.key)) && result.value == Flatten(Data(order));
      OpenAllPermutes(envs, all, job.key);
      assert OpenAll(all, job.key) == Numbered(pieces);
      OrderIsUnique(pieces, order);
      assert Data(order) == pieces;
    }
  }

  /** A message comes back from any permutation of its envelopes exactly when it is
      not empty; the empty message has no envelopes and cannot be assembled. */
  lemma {:induction false} MessageRoundTrip(messageId: string, senderId: string, recipientId: string,
                                        plaintext: seq<byte>,
                         recipient: PrivateKey, ephemeral: PrivateKey, signer: PrivateKey, nonces: nat -> nat,
                         envs: seq<Envelope>, result: Option<seq<byte>>)
    requires multiset(envs) == multiset(Envelopes(
               MessageJob(messageId, senderId, recipientId, PublicOf(recipient), ephemeral, signer, nonces),
               Split(plaintext, CHUNK_SIZE)))
    requires envs == [] || envs[0].body.ephemeralKey.None? ==> result == None
    requires envs != [] && envs[0].body.ephemeralKey.Some? ==>
               Assembles(envs, DeriveSharedKey(recipient, envs[0].body.ephemeralKey.value), PublicOf(signer), result)
    ensures result == Some(plaintext) <==> plaintext != []
    ensures plaintext == [] ==> result == None
  {
    var job := MessageJob(messageId, senderId, recipientId, PublicOf(recipient), ephemeral, signer, nonces);
    var pieces := Split(plaintext, CHUNK_SIZE);
    assert |envs| == |multiset(envs)| == |multiset(Envelopes(job, pieces))| == |pieces|;
    PieceShape(plaintext, CHUNK_SIZE, 0);
    HonestOpen(job, pieces, envs);
    if plaintext != [] {
      assert envs[0] in envs;
      assert DeriveSharedKey(recipient, PublicOf(ephemeral)) == job.key;
      AssembleHonest(job, pieces, envs, result);
      SplitFlatten(plaintext, CHUNK_SIZE);
    }
  }

  /** A file, the empty file included, comes back from any permutation. */
  lemma {:induction false} FileRoundTrip(fileId: string, senderId: string, plaintext: seq<byte>, aesKey: AesKey,
                                        signer: PrivateKey,
                      nonces: nat -> nat, envs: seq<Envelope>, result: Option<seq<byte>>)
    requires multiset(envs) == multiset(Envelopes(FileJob(fileId, senderId, aesKey, signer, nonces),
                                                  FilePieces(plaintext)))
    requires Assembles(envs, aesKey, PublicOf(signer), result)
    ensures result == Some(plaintext)
  {
    PieceShape(plaintext, CHUNK_SIZE, 0);
    AssembleHonest(FileJob(fileId, senderId, aesKey, signer, nonces), FilePieces(plaintext), envs, result);
    SplitFlatten(plaintext, CHUNK_SIZE);
    assert plaintext == [] ==> FilePieces(plaintext)[..0] == [];
  }
}
