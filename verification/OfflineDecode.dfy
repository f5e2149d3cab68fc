/** From directory records to plaintext: the second half of collectAndProcessMessage in
    internal/messenger/messages.go. Marshalling is injective and hashes do not collide. */
module OfflineDecode {
  import opened Basics
  import opened Pieces
  import opened Codec

  /** Chunk bytes: a marshalled envelope, or bytes that do not unmarshal. */
  datatype Blob = Marshalled(env: Envelope) | Garbage(bytes: seq<byte>)
  datatype Hash = NoHash | RegisteredHash(of: Blob)
  datatype Record = Record(index: int, hash: Hash, persist: bool)
  /** A directory record with what getChunkData returns for it. */
  datatype Look = Look(record: Record, got: Option<Blob>)

  /** What becomes of the message; only Plain carries a decrypted payload. */
  datatype Decoded = NothingCollected | BadEnvelope | Waiting | NoSender | LeftForMessage | Undecryptable
                   | Plain(payload: seq<byte>)

  // ---- Which chunks are taken ----

  predicate Usable(look: Look) {
    look.got.Some? && (look.record.hash.NoHash? || look.record.hash == RegisteredHash(look.got.value))
  }

  /** The indices already taken from the first n looks. */
  function Seen(looks: seq<Look>, n: nat): set<int>
    requires n <= |looks|
  {
    set j | 0 <= j < n && Usable(looks[j]) :: looks[j].record.index
  }

  /** Look j is the first usable one of its index. */
  predicate IsFirst(looks: seq<Look>, j: int)
    requires 0 <= j < |looks|
  {
    Usable(looks[j]) && looks[j].record.index !in Seen(looks, j)
  }

  /** The looks taken from the first n. */
  function Chosen(looks: seq<Look>, n: nat): seq<Look>
    requires n <= |looks|
  {
    if n == 0 then []
    else if IsFirst(looks, n - 1) then Chosen(looks, n - 1) + [looks[n - 1]]
    else Chosen(looks, n - 1)
  }

  function Index(look: Look): int {
    look.record.index
  }

  function Indices(taken: seq<Look>): seq<int> {
    seq(|taken|, i requires 0 <= i < |taken| => Index(taken[i]))
  }

  predicate AllUsable(taken: seq<Look>) {
    forall i :: 0 <= i < |taken| ==> Usable(taken[i])
  }

  predicate Distinct(s: seq<int>) {
    forall i, j :: 0 <= i < j < |s| ==> s[i] != s[j]
  }

  /** Whatever is taken is usable and no index is taken twice; every index with a
      usable chunk is taken. */
  lemma {:induction false} ChosenMeaning(looks: seq<Look>, n: nat)
    requires n <= |looks|
    ensures AllUsable(Chosen(looks, n)) && Distinct(Indices(Chosen(looks, n)))
    ensures forall i :: 0 <= i < |Chosen(looks, n)| ==> Chosen(looks, n)[i] in looks
    ensures forall i :: i in Seen(looks, n) <==> i in Indices(Chosen(looks, n))
  {
    if n > 0 {
      ChosenMeaning(looks, n - 1);
      var taken := Chosen(looks, n - 1);
      SeenStep(looks, n - 1);
      if IsFirst(looks, n - 1) {
        var all := Indices(taken) + [Index(looks[n - 1])];
        assert all == Indices(Chosen(looks, n));
        assert forall i :: i in all <==> i in Indices(taken) || i == Index(looks[n - 1]);
        assert forall i :: 0 <= i < |taken| ==> Indices(taken)[i] in Indices(taken);
      }
    }
  }

  lemma {:induction false} SeenStep(looks: seq<Look>, n: nat)
    requires n < |looks|
    ensures Seen(looks, n + 1) == Seen(looks, n) + if Usable(looks[n]) then {looks[n].record.index} else {}
  {
  }

  function BlobOf(look: Look): Blob
    requires Usable(look)
  {
    look.got.value
  }

  function Blobs(taken: seq<Look>): seq<Blob>
    requires AllUsable(taken)
  {
    seq(|taken|, i requires 0 <= i < |taken| => BlobOf(taken[i]))
  }

  /** Indices still missing when they were looked for, tracked again. */
  function Again(looks: seq<Look>, n: nat): set<int>
    requires n <= |looks|
  {
    set j | 0 <= j < n && looks[j].got.None? && looks[j].record.index !in Seen(looks, j) :: looks[j].record.index
  }

  /** Indices whose stored bytes do not hash to the registered value, deleted. */
  function Dropped(looks: seq<Look>, n: nat): set<int>
    requires n <= |looks|
  {
    set j | 0 <= j < n && looks[j].got.Some? && !Usable(looks[j]) && looks[j].record.index !in Seen(looks, j) ::
      looks[j].record.index
  }

  /** The collection loop. */
  method CollectChunks(looks: seq<Look>) returns (chunkData: seq<Blob>, again: set<int>, dropped: set<int>)
    ensures AllUsable(Chosen(looks, |looks|))
    ensures chunkData == Blobs(Chosen(looks, |looks|))
    ensures again == Again(looks, |looks|) && dropped == Dropped(looks, |looks|)
  {
    chunkData, again, dropped := [], {}, {};
    var seen: set<int> := {};
    var n := 0;
    while n < |looks|
      invariant 0 <= n <= |looks|
      invariant AllUsable(Chosen(looks, n))
      invariant chunkData == Blobs(Chosen(looks, n))
      invariant seen == Seen(looks, n) && again == Again(looks, n) && dropped == Dropped(looks, n)
    {
      SeenStep(looks, n);
      LostStep(looks, n);
      var Look(rec, got) := looks[n];
      if rec.index !in seen {
        if got.None? {
          again := again + {rec.index};
        } else if rec.hash != NoHash && rec.hash != RegisteredHash(got.value) {
          dropped := dropped + {rec.index};
        } else {
          chunkData := chunkData + [got.value];
          seen := seen + {rec.index};
        }
      }
      n := n + 1;
    }
  }

  lemma {:induction false} LostStep(looks: seq<Look>, n: nat)
    requires n < |looks|
    ensures var i := looks[n].record.index;
            && Again(looks, n + 1) == Again(looks, n) + (if looks[n].got.None? && i !in Seen(looks, n) then {i} else {})
            && Dropped(looks, n + 1) == Dropped(looks, n) +
                 (if looks[n].got.Some? && !Usable(looks[n]) && i !in Seen(looks, n) then {i} else {})
  {
    hide Seen, Usable;
  }

  // ---- Decoding ----

  function Unmarshalled(data: seq<Blob>): seq<Envelope>
    requires forall b <- data :: b.Marshalled?
  {
    seq(|data|, i requires 0 <= i < |data| => data[i].env)
  }

  /** What AssembleAndDecrypt may return. */
  ghost predicate Decrypts(envs: seq<Envelope>, own: PrivateKey, verifyKey: PublicKey, result: Option<seq<byte>>) {
    && (envs == [] || envs[0].body.ephemeralKey.None? ==> result == None)
    && (envs != [] && envs[0].body.ephemeralKey.Some? ==>
          Assembles(envs, DeriveSharedKey(own, envs[0].body.ephemeralKey.value), verifyKey, result))
  }

  /** What the collected chunks may lead to. */
  ghost predicate Leads(data: seq<Blob>, persist: bool, sender: Option<PublicKey>, own: PrivateKey, outcome: Decoded) {
    if data == [] then outcome == NothingCollected
    else if exists b <- data :: b.Garbage? then outcome == BadEnvelope
    else
      var envs := Unmarshalled(data);
      if |envs| < envs[0].body.totalChunks then outcome == Waiting
      else if sender.None? then outcome == NoSender
      else if persist then outcome == LeftForMessage
      else match outcome
           case Plain(payload) => Decrypts(envs, own, sender.value, Some(payload))
           case Undecryptable => Decrypts(envs, own, sender.value, None)
           case _ => false
  }

  method Decode(chunkData: seq<Blob>, persist: bool, sender: Option<PublicKey>, own: PrivateKey)
    returns (outcome: Decoded)
    ensures outcome == NothingCollected <==> chunkData == []
    ensures outcome == BadEnvelope <==> exists b <- chunkData :: b.Garbage?
    ensures chunkData != [] && (forall b <- chunkData :: b.Marshalled?) ==>
              var enough := |chunkData| >= chunkData[0].env.body.totalChunks;
              && (outcome == Waiting <==> !enough)
              && (outcome == NoSender <==> enough && sender.None?)
              && (outcome == LeftForMessage <==> enough && sender.Some? && persist)
              && (outcome.Plain? || outcome.Undecryptable? <==> enough && sender.Some? && !persist)
    ensures Leads(chunkData, persist, sender, own, outcome)
  {
    if |chunkData| == 0 {
      return NothingCollected;
    }
    var envelopes: seq<Envelope> := [];
    var i := 0;
    while i < |chunkData|
      invariant 0 <= i <= |chunkData|
      invariant |envelopes| <= i
      invariant |envelopes| == i <==> forall b <- chunkData[..i] :: b.Marshalled?
      invariant |envelopes| == i ==> envelopes == Unmarshalled(chunkData[..i])
    {
      assert chunkData[..i+1] == chunkData[..i] + [chunkData[i]];
      if chunkData[i].Marshalled? {
        envelopes := envelopes + [chunkData[i].env];
      }
      i := i + 1;
    }
    assert chunkData[..i] == chunkData;
    if |envelopes| != |chunkData| {
      return BadEnvelope;
    }
    if |envelopes| < envelopes[0].body.totalChunks {
      return Waiting;
    }
    if sender.None? {
      return NoSender;
    }
    if persist {
      return LeftForMessage;
    }
    var plaintext := AssembleAndDecrypt(envelopes, own, sender.value);
    outcome := if plaintext.Some? then Plain(plaintext.value) else Undecryptable;
  }

  // ---- Decoding is right ----

  lemma {:induction false} Pigeonhole(s: seq<int>, n: nat)
    requires forall i :: 0 <= i < |s| ==> 0 <= s[i] < n
    requires Distinct(s)
    ensures |s| <= n
  {
    if |s| > 0 {
      var _ := s[0];
      if k: nat :| k < |s| && s[k] == n - 1 {
        Pigeonhole(s[..k] + s[k+1..], n - 1);
      } else {
        Pigeonhole(s, n - 1);
      }
    }
  }

  /** As many distinct indices as there are elements pick a permutation. */
  lemma {:induction false} PicksPermute<T>(all: seq<T>, picked: seq<T>, index: seq<int>)
    requires |picked| == |index| == |all|
    requires forall i :: 0 <= i < |index| ==> 0 <= index[i] < |all| && picked[i] == all[index[i]]
    requires Distinct(index)
    ensures multiset(picked) == multiset(all)
  {
    if all != [] {
      var n := |all| - 1;
      if forall i :: 0 <= i < |index| ==> index[i] != n {
        Pigeonhole(index, n);
        assert false;
      }
      var k: nat :| k < |index| && index[k] == n;
      RemoveAt(picked, k);
      Without(all, picked, index, k);
      PicksPermute(all[..n], picked[..k] + picked[k+1..], index[..k] + index[k+1..]);
      assert all == all[..n] + [all[n]];
    }
  }

  lemma {:induction false} Without<T>(all: seq<T>, picked: seq<T>, index: seq<int>, k: nat)
    requires |picked| == |index| == |all| && k < |all| && index[k] == |all| - 1
    requires forall i :: 0 <= i < |index| ==> 0 <= index[i] < |all| && picked[i] == all[index[i]]
    requires Distinct(index)
    ensures var index', picked' := index[..k] + index[k+1..], picked[..k] + picked[k+1..];
            && (forall i :: 0 <= i < |index'| ==> 0 <= index'[i] < |all| - 1 && picked'[i] == all[..|all|-1][index'[i]])
            && Distinct(index')
  {
    var index' := index[..k] + index[k+1..];
    forall i | 0 <= i < |index'|
      ensures 0 <= index'[i] < |all| - 1
    {
      assert index'[i] == index[if i < k then i else i + 1];
    }
  }

  lemma {:induction false} Coverage(index: seq<int>, total: nat)
    requires forall i :: 0 <= i < total ==> i in index
    ensures |index| >= total
  {
    if total > 0 {
      assert total - 1 in index;
      var k: nat :| k < |index| && index[k] == total - 1;
      var rest := index[..k] + index[k+1..];
      forall i | 0 <= i < total - 1
        ensures i in rest
      {
        assert i in index;
        var j: nat :| j < |index| && index[j] == i;
        assert rest[if j < k then j else j - 1] == i;
      }
      Coverage(rest, total - 1);
    }
  }

  /** Distinct indices below a bound reach it in number exactly when they cover it. */
  lemma {:induction false} CountedIsCovered(index: seq<int>, total: nat)
    requires forall i :: 0 <= i < |index| ==> 0 <= index[i] < total
    requires Distinct(index)
    ensures |index| <= total
    ensures |index| == total <==> forall i :: 0 <= i < total ==> i in index
  {
    Pigeonhole(index, total);
    if i :| 0 <= i < total && i !in index {
      assert forall j :: 0 <= j < |index| ==> index[j] in index;
      Pigeonhole(index + [i], total);
    } else {
      Coverage(index, total);
    }
  }

  /** The directory lists one of these envelopes under its true hash. */
  predicate ListsOneOf(rec: Record, all: seq<Envelope>) {
    0 <= rec.index < |all| && rec.hash == RegisteredHash(Marshalled(all[rec.index]))
  }

  /** The directory lists this message's envelopes under their true hashes. */
  predicate HonestRecord(rec: Record, all: seq<Envelope>) {
    ListsOneOf(rec, all) && !rec.persist
  }

  /** The same for a file. */
  predicate HonestFileRecord(rec: Record, all: seq<Envelope>) {
    ListsOneOf(rec, all) && rec.persist
  }

  predicate AtHand(looks: seq<Look>, i: int) {
    exists l <- looks :: Index(l) == i && Usable(l)
  }

  /** Every chunk of the message is at hand under some record. */
  predicate Complete(looks: seq<Look>, total: nat) {
    forall i :: 0 <= i < total ==> AtHand(looks, i)
  }

  predicate Names(all: seq<Envelope>, data: seq<Blob>, index: seq<int>) {
    && |data| == |index|
    && (forall i :: 0 <= i < |index| ==> 0 <= index[i] < |all|)
    && (forall i :: 0 <= i < |index| ==> data[i] == Marshalled(all[index[i]]))
  }

  /** What is collected for an honest message or file: its own envelopes, each at most once. */
  lemma {:induction false} HonestChunks(looks: seq<Look>, all: seq<Envelope>)
    requires forall l <- looks :: ListsOneOf(l.record, all)
    ensures AllUsable(Chosen(looks, |looks|)) && Distinct(Indices(Chosen(looks, |looks|)))
    ensures Names(all, Blobs(Chosen(looks, |looks|)), Indices(Chosen(looks, |looks|)))
  {
    ChosenMeaning(looks, |looks|);
    var taken := Chosen(looks, |looks|);
    hide Seen;
    forall i | 0 <= i < |taken|
      ensures 0 <= Index(taken[i]) < |all| && BlobOf(taken[i]) == Marshalled(all[Index(taken[i])])
    {
      assert Usable(taken[i]) && taken[i] in looks;
      assert ListsOneOf(taken[i].record, all);
    }
  }

  lemma {:induction false} CompleteIsCounted(looks: seq<Look>, all: seq<Envelope>)
    requires forall l <- looks :: ListsOneOf(l.record, all)
    ensures |Chosen(looks, |looks|)| <= |all|
    ensures Complete(looks, |all|) <==> |Chosen(looks, |looks|)| == |all|
  {
    var taken := Chosen(looks, |looks|);
    var index := Indices(taken);
    HonestChunks(looks, all);
    CountedIsCovered(index, |all|);
    forall i | 0 <= i < |all|
      ensures i in index <==> AtHand(looks, i)
    {
      TakenIndex(looks, i);
    }
  }

  lemma {:induction false} TakenIndex(looks: seq<Look>, i: int)
    ensures i in Indices(Chosen(looks, |looks|)) <==> AtHand(looks, i)
  {
    ChosenMeaning(looks, |looks|);
    if l :| l in looks && Index(l) == i && Usable(l) {
      var j :| 0 <= j < |looks| && looks[j] == l;
      assert i in Seen(looks, |looks|);
    }
  }

  /** For an honest sender: the payload is decrypted exactly when every chunk is at
      hand, and then it is the payload sent; otherwise the message waits. Nothing else
      can come out, whatever duplicates, stale copies and orders the directory lists. */
  lemma {:induction false} OfflineDecodeIsRight(messageId: string, senderId: string, recipientId: string,
                                        payload: seq<byte>,
                             recipient: PrivateKey, ephemeral: PrivateKey, signer: PrivateKey, nonces: nat -> nat,
                             looks: seq<Look>, chunkData: seq<Blob>, outcome: Decoded)
    requires var all := Envelopes(MessageJob(messageId, senderId, recipientId, PublicOf(recipient), ephemeral, signer,
                                             nonces),
                                  Split(payload, CHUNK_SIZE));
             forall l <- looks :: HonestRecord(l.record, all)
    requires looks != []
    requires AllUsable(Chosen(looks, |looks|))
    requires chunkData == Blobs(Chosen(looks, |looks|))
    requires Leads(chunkData, looks[0].record.persist, Some(PublicOf(signer)), recipient, outcome)
    ensures outcome == Plain(payload) <==> Complete(looks, |Split(payload, CHUNK_SIZE)|)
    ensures outcome == Plain(payload) || outcome == Waiting || outcome == NothingCollected
  {
    var job := MessageJob(messageId, senderId, recipientId, PublicOf(recipient), ephemeral, signer, nonces);
    var all := Envelopes(job, Split(payload, CHUNK_SIZE));
    var index := Indices(Chosen(looks, |looks|));
    assert looks[0] in looks && HonestRecord(looks[0].record, all);
    assert forall l <- looks :: ListsOneOf(l.record, all);
    HonestChunks(looks, all);
    CompleteIsCounted(looks, all);
    hide Chosen, Complete, Decrypts, Usable;
    if chunkData != [] {
      var envs := Unmarshalled(chunkData);
      HonestTotals(job, Split(payload, CHUNK_SIZE), index[0]);
      assert envs[0] == all[index[0]];
      if |envs| == |all| {
        PicksPermute(all, envs, index);
        PayloadNotEmpty(payload);
        Decrypted(messageId, senderId, recipientId, payload, recipient, ephemeral, signer, nonces, envs, outcome);
      }
    }
  }

  // ---- Files ----

  /** Every envelope says how many there are. */
  predicate SaysTotal(all: seq<Envelope>) {
    forall i :: 0 <= i < |all| ==> all[i].body.totalChunks == |all|
  }

  /** Envelopes that say their number, listed under their true hashes: what is collected is
      enough exactly when every index below that number is at hand. */
  lemma {:induction false} EnoughIsComplete(looks: seq<Look>, all: seq<Envelope>, chunkData: seq<Blob>)
    requires forall l <- looks :: ListsOneOf(l.record, all)
    requires SaysTotal(all) && all != []
    requires AllUsable(Chosen(looks, |looks|)) && chunkData == Blobs(Chosen(looks, |looks|))
    ensures forall b <- chunkData :: b.Marshalled?
    ensures Complete(looks, |all|) <==> chunkData != [] && |chunkData| >= chunkData[0].env.body.totalChunks
  {
    HonestChunks(looks, all);
    CompleteIsCounted(looks, all);
    hide Chosen, Complete, Usable;
  }

  /** Files: with a known sender the chunks are left to the message exactly when every index
      below the total is at hand; otherwise the file waits, and nothing is decrypted. */
  lemma {:induction false} LeftExactlyWhenComplete(looks: seq<Look>, all: seq<Envelope>, chunkData: seq<Blob>,
                                                   sender: Option<PublicKey>, own: PrivateKey, outcome: Decoded)
    requires forall l <- looks :: HonestFileRecord(l.record, all)
    requires looks != [] && SaysTotal(all)
    requires AllUsable(Chosen(looks, |looks|)) && chunkData == Blobs(Chosen(looks, |looks|))
    requires Leads(chunkData, looks[0].record.persist, sender, own, outcome)
    ensures outcome == LeftForMessage <==> sender.Some? && Complete(looks, |all|)
    ensures outcome == NoSender <==> sender.None? && Complete(looks, |all|)
    ensures !Complete(looks, |all|) ==> outcome == Waiting || outcome == NothingCollected
    ensures !outcome.Plain?
  {
    assert looks[0] in looks && HonestFileRecord(looks[0].record, all);
    EnoughIsComplete(looks, all, chunkData);
    hide Chosen, Complete, Decrypts, Usable;
    if chunkData != [] {
      var _ := chunkData[0];
    }
  }

  /** For an honest sender of a file, the empty file included. */
  lemma {:induction false} OfflineFileIsRight(fileId: string, senderId: string, plaintext: seq<byte>, aesKey: AesKey,
                                              signer: PrivateKey, nonces: nat -> nat, looks: seq<Look>,
                                              chunkData: seq<Blob>, sender: Option<PublicKey>, own: PrivateKey,
                                              outcome: Decoded)
    requires var all := Envelopes(FileJob(fileId, senderId, aesKey, signer, nonces), FilePieces(plaintext));
             forall l <- looks :: HonestFileRecord(l.record, all)
    requires looks != []
    requires AllUsable(Chosen(looks, |looks|)) && chunkData == Blobs(Chosen(looks, |looks|))
    requires Leads(chunkData, looks[0].record.persist, sender, own, outcome)
    ensures outcome == LeftForMessage <==> sender.Some? && Complete(looks, |FilePieces(plaintext)|)
    ensures outcome == NoSender <==> sender.None? && Complete(looks, |FilePieces(plaintext)|)
    ensures !Complete(looks, |FilePieces(plaintext)|) ==> outcome == Waiting || outcome == NothingCollected
    ensures !outcome.Plain?
  {
    var job := FileJob(fileId, senderId, aesKey, signer, nonces);
    var all := Envelopes(job, FilePieces(plaintext));
    forall i | 0 <= i < |all|
      ensures all[i].body.totalChunks == |all|
    {
      HonestTotals(job, FilePieces(plaintext), i);
    }
    LeftExactlyWhenComplete(looks, all, chunkData, sender, own, outcome);
  }

  /** Whatever was collected: without a known sender nothing is decrypted and nothing is
      left to a message. */
  lemma {:induction false} UnknownSender(data: seq<Blob>, persist: bool, own: PrivateKey, outcome: Decoded)
    requires Leads(data, persist, None, own, outcome)
    ensures !outcome.Plain? && !outcome.LeftForMessage? && !outcome.Undecryptable?
  {
    hide Decrypts;
  }

  lemma {:induction false} HonestTotals(job: Job, pieces: seq<seq<byte>>, i: int)
    requires 0 <= i < |pieces|
    ensures Envelopes(job, pieces)[i].body.totalChunks == |pieces| == |Envelopes(job, pieces)|
  {
  }

  lemma {:induction false} PayloadNotEmpty(payload: seq<byte>)
    ensures Split(payload, CHUNK_SIZE) != [] ==> payload != []
  {
    PieceShape(payload, CHUNK_SIZE, 0);
  }

  lemma {:induction false} Decrypted(messageId: string, senderId: string, recipientId: string, payload: seq<byte>,
                  recipient: PrivateKey, ephemeral: PrivateKey, signer: PrivateKey, nonces: nat -> nat,
                  envs: seq<Envelope>, outcome: Decoded)
    requires multiset(envs) == multiset(Envelopes(
               MessageJob(messageId, senderId, recipientId, PublicOf(recipient), ephemeral, signer, nonces),
               Split(payload, CHUNK_SIZE)))
    requires payload != []
    requires match outcome
             case Plain(p) => Decrypts(envs, recipient, PublicOf(signer), Some(p))
             case Undecryptable => Decrypts(envs, recipient, PublicOf(signer), None)
             case _ => false
    ensures outcome == Plain(payload)
  {
    var result := if outcome.Plain? then Some(outcome.payload) else None;
    MessageRoundTrip(messageId, senderId, recipientId, payload, recipient, ephemeral, signer, nonces, envs, result);
  }
}
