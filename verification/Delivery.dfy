/**
 A text sent to a quiet room. The sender encrypts it once for each ready peer,
 the relay hands each copy to that peer's connection, and the peer decrypts it.
 Key agreement and encryption are parameters.
 */
module Delivery {
  import opened Wrappers
  import opened PeerSession
  import opened Page
  import opened Handshake
  import opened HandshakeInvariant
  import opened HandshakeProof
  import Hex

  /** X25519 key pairs and agreement, and authenticated encryption under a secret, a salt and a nonce. */
  datatype Crypto<!P, !S> = Crypto(
    pub: P -> Key,
    agree: (P, Key) -> S,
    seal: (S, seq<Byte>, seq<Byte>, string) -> seq<Byte>,
    unseal: (S, seq<Byte>, seq<Byte>, seq<Byte>) -> Option<string>)

  /** Section 6.1 of RFC 7748, and decryption of what was encrypted. */
  ghost predicate Lawful<P(!new), S(!new)>(k: Crypto<P, S>) {
    && (forall a: P, b: P :: k.agree(a, k.pub(b)) == k.agree(b, k.pub(a)))
    && (forall s: S, salt, nonce, text :: k.unseal(s, salt, nonce, k.seal(s, salt, nonce, text)) == Some(text))
  }

  datatype Message = Message(room: string, sender: Fp, recipient: Fp, ciphertext: string, nonce: string)

  /** What a browser sends from: its private key, fingerprint, tab and active room. */
  datatype Sender<P> = Sender(priv: P, me: Fp, tab: Tab, room: string)

  function Recipients(t: Tab, peers: seq<Fp>): (r: seq<Fp>)
    ensures forall fp :: fp in r <==> fp in peers && IsReady(t.sessions, fp)
    ensures forall fp :: fp in r <==>
              fp in peers && fp in t.sessions && t.sessions[fp].state == READY && t.sessions[fp].sharedSecretReady
  {
    if peers == [] then []
    else (if IsReady(t.sessions, peers[0]) then [peers[0]] else []) + Recipients(t, peers[1..])
  }

  function Copy<P, S>(k: Crypto<P, S>, b: Sender<P>, salt: seq<Byte>, nonce: seq<Byte>, text: string, fp: Fp): Message
    requires fp in b.tab.secrets
  {
    var ciphertext := k.seal(k.agree(b.priv, b.tab.secrets[fp]), salt, nonce, text);
    Message(b.room, b.me, fp, Hex.Encode(ciphertext), Hex.Encode(nonce))
  }

  /** One copy for each recipient that has a secret; the i-th recipient gets the i-th nonce. */
  function Copies<P, S>(k: Crypto<P, S>, b: Sender<P>, salt: seq<Byte>, nonces: nat -> seq<Byte>, text: string,
                        to: seq<Fp>): seq<Message> {
    if to == [] then []
    else
      var fp := to[|to| - 1];
      Copies(k, b, salt, nonces, text, to[..|to| - 1])
      + if fp in b.tab.secrets then [Copy(k, b, salt, nonces(|to| - 1), text, fp)] else []
  }

  /** Everything that leaves the browser; fromHex throws on a room id of odd length. */
  function Outgoing<P, S>(k: Crypto<P, S>, b: Sender<P>, nonces: nat -> seq<Byte>, text: string): seq<Message> {
    match Hex.Decode(b.room)
    case None => []
    case Some(salt) => Copies(k, b, salt, nonces, text, Recipients(b.tab, b.tab.peers))
  }

  method SendMessage<P, S>(k: Crypto<P, S>, b: Sender<P>, nonces: nat -> seq<Byte>, text: string)
    returns (out: seq<Message>)
    ensures out == Outgoing(k, b, nonces, text)
    ensures |b.room| % 2 != 0 ==> out == []
  {
    out := [];
    var to := Recipients(b.tab, b.tab.peers);
    var salt := Hex.Decode(b.room);
    if salt.None? || to == [] {
      return;
    }
    for i := 0 to |to|
      invariant out == Copies(k, b, salt.value, nonces, text, to[..i])
    {
      assert to[..i + 1][..i] == to[..i];
      if to[i] in b.tab.secrets {
        out := out + [Copy(k, b, salt.value, nonces(i), text, to[i])];
      }
    }
    assert to[..|to|] == to;
  }

  /** The relay takes the first member with the fingerprint, and sends if its socket is open. */
  function FindClient(s: Net, members: seq<nat>, fp: Fp): Option<nat> {
    First(members, (c: nat) => c < |s.links| && s.links[c].owner == fp)
  }

  function Forward(s: Net, m: Message): Option<nat> {
    match FindClient(s, s.members, m.recipient)
    case Some(c) => if c < |s.links| && s.links[c].open then Some(c) else None
    case None => None
  }

  /** What the receiving tab makes of a message. */
  function Read<P, S>(k: Crypto<P, S>, priv: P, me: Fp, t: Tab, m: Message): Option<string> {
    if m.sender == me || m.sender !in t.secrets || m.recipient != me then None
    else
      match (Hex.Decode(m.room), Hex.Decode(m.ciphertext), Hex.Decode(m.nonce))
      case (Some(salt), Some(ciphertext), Some(nonce)) =>
        k.unseal(k.agree(priv, t.secrets[m.sender]), salt, nonce, ciphertext)
      case _ => None
  }

  // The proof.

  lemma {:induction false} RecipientsDistinct(t: Tab, peers: seq<Fp>)
    requires Distinct(peers)
    ensures Distinct(Recipients(t, peers))
  {
    if peers != [] {
      RecipientsDistinct(t, peers[1..]);
    }
  }

  /** Recipients stand in the order of the peer list. */
  lemma {:induction false} RecipientsInOrder(t: Tab, peers: seq<Fp>, i: nat, j: nat) returns (k: nat, l: nat)
    requires i < j < |Recipients(t, peers)|
    ensures k < l < |peers| && peers[k] == Recipients(t, peers)[i] && peers[l] == Recipients(t, peers)[j]
  {
    if IsReady(t.sessions, peers[0]) {
      if i == 0 {
        k := 0;
        assert Recipients(t, peers)[j] == Recipients(t, peers[1..])[j - 1];
        assert Recipients(t, peers)[j] in Recipients(t, peers[1..]);
        var m :| 0 <= m < |peers[1..]| && peers[1..][m] == Recipients(t, peers)[j];
        assert peers[m + 1] == peers[1..][m];
        l :| 0 < l < |peers| && peers[l] == Recipients(t, peers)[j];
      } else {
        k, l := RecipientsInOrder(t, peers[1..], i - 1, j - 1);
        k, l := k + 1, l + 1;
      }
    } else {
      k, l := RecipientsInOrder(t, peers[1..], i, j);
      k, l := k + 1, l + 1;
    }
  }

  /**
   Exactly the recipients with a secret get a copy, in their order; each copy is
   made with its recipient's secret and the nonce of its place.
   */
  lemma {:induction false} CopiesExactly<P, S>(k: Crypto<P, S>, b: Sender<P>, salt: seq<Byte>, nonces: nat -> seq<Byte>,
                                               text: string, to: seq<Fp>, m: Message)
    ensures m in Copies(k, b, salt, nonces, text, to) <==>
            exists i :: 0 <= i < |to| && to[i] in b.tab.secrets && m == Copy(k, b, salt, nonces(i), text, to[i])
  {
    if to != [] {
      var n := |to| - 1;
      CopiesExactly(k, b, salt, nonces, text, to[..n], m);
      if to[n] in b.tab.secrets && m == Copy(k, b, salt, nonces(n), text, to[n]) {
        assert m in Copies(k, b, salt, nonces, text, to);
      }
      forall i | 0 <= i < n && to[i] in b.tab.secrets && m == Copy(k, b, salt, nonces(i), text, to[i])
        ensures m in Copies(k, b, salt, nonces, text, to)
      {
        assert to[..n][i] == to[i];
      }
    }
  }

  /** A copy names the room and both ends, and spells out the nonce and what was sealed with it and the salt. */
  lemma CopyExactly<P, S>(k: Crypto<P, S>, b: Sender<P>, salt: seq<Byte>, nonce: seq<Byte>, text: string, fp: Fp)
    requires fp in b.tab.secrets
    ensures var m := Copy(k, b, salt, nonce, text, fp);
            && m.room == b.room && m.sender == b.me && m.recipient == fp && Hex.Decode(m.nonce) == Some(nonce)
            && Hex.Decode(m.ciphertext) == Some(k.seal(k.agree(b.priv, b.tab.secrets[fp]), salt, nonce, text))
  {
    Hex.HexRoundTrip(nonce);
    Hex.HexRoundTrip(k.seal(k.agree(b.priv, b.tab.secrets[fp]), salt, nonce, text));
  }

  /** A tab reads only what somebody else with a secret has sent to it, and only as the decryption has it. */
  lemma ReadExactly<P, S>(k: Crypto<P, S>, priv: P, me: Fp, t: Tab, m: Message)
    ensures Read(k, priv, me, t, m).Some? ==> m.sender != me && m.recipient == me && m.sender in t.secrets
    ensures m.sender != me && m.recipient == me && m.sender in t.secrets && |m.room| % 2 == 0 && |m.ciphertext| % 2 == 0
            && |m.nonce| % 2 == 0 ==>
              Read(k, priv, me, t, m)
              == k.unseal(k.agree(priv, t.secrets[m.sender]), Hex.Decoded(m.room), Hex.Decoded(m.nonce),
                          Hex.Decoded(m.ciphertext))
  {
  }

  lemma {:induction false} CopiesAt<P, S>(k: Crypto<P, S>, b: Sender<P>, salt: seq<Byte>, nonces: nat -> seq<Byte>,
                                          text: string, to: seq<Fp>)
    requires forall fp :: fp in to ==> fp in b.tab.secrets
    ensures var ms := Copies(k, b, salt, nonces, text, to);
            |ms| == |to| && forall i :: 0 <= i < |to| ==> ms[i] == Copy(k, b, salt, nonces(i), text, to[i])
  {
    if to != [] {
      CopiesAt(k, b, salt, nonces, text, to[..|to| - 1]);
    }
  }

  lemma {:induction false} FindsMember(s: Net, members: seq<nat>, d: nat)
    requires forall c :: c in members ==> c < |s.links|
    requires forall c, e :: c in members && e in members && c != e ==> s.links[c].owner != s.links[e].owner
    requires d in members
    ensures FindClient(s, members, s.links[d].owner) == Some(d)
  {
    if members[0] != d {
      assert members[0] in members && d in members[1..] && forall c :: c in members[1..] ==> c in members;
      FindsMember(s, members[1..], d);
    }
  }

  ghost predicate OwnKeys<P(!new), S>(k: Crypto<P, S>, s: Net, privs: Fp -> P) {
    forall fp :: 0 <= fp < |s.browsers| ==> k.pub(privs(fp)) == s.browsers[fp].pub
  }

  /** A copy made in an agreeing room for member d is read by d as it was written. */
  lemma CopyIsRead<P(!new), S(!new)>(k: Crypto<P, S>, s: Net, privs: Fp -> P, c: nat, d: nat, room: string,
                                     nonce: seq<Byte>, text: string)
    requires Lawful(k) && Shape(s) && Quiescent(s) && Agreement(s) && OwnKeys(k, s, privs)
    requires c in s.members && d in s.members && c != d && |room| % 2 == 0
    ensures var a, b := s.links[c].owner, s.links[d].owner;
            var from := Sender(privs(a), a, TabOf(s, c), room);
            && b in from.tab.secrets
            && Read(k, privs(b), b, TabOf(s, d), Copy(k, from, Hex.Decode(room).value, nonce, text, b)) == Some(text)
  {
    var a, b := s.links[c].owner, s.links[d].owner;
    assert AgreesAt(s, c) && AgreesAt(s, d) && b in Others(s, c) && a in Others(s, d);
    var salt := Hex.Decode(room).value;
    var secret := k.agree(privs(a), s.browsers[b].pub);
    assert secret == k.agree(privs(b), s.browsers[a].pub);
    Hex.HexRoundTrip(nonce);
    Hex.HexRoundTrip(k.seal(secret, salt, nonce, text));
  }

  /** Of the messages, only the i-th goes to connection d, whose browser reads the text from it. */
  ghost predicate GetsOnly<P(!new), S>(k: Crypto<P, S>, s: Net, privs: Fp -> P, out: seq<Message>, i: nat, d: nat,
                                       text: string)
    requires i < |out|
  {
    && Owned(s, d)
    && (forall j :: 0 <= j < |out| ==> (Forward(s, out[j]) == Some(d) <==> j == i))
    && Read(k, privs(s.links[d].owner), s.links[d].owner, TabOf(s, d), out[i]) == Some(text)
  }

  /** Copies go one by one to the other members of a quiet room. */
  lemma CopiesGoToOthers<P(!new), S(!new)>(k: Crypto<P, S>, s: Net, b: Sender<P>, c: nat, nonces: nat -> seq<Byte>,
                                           text: string) returns (out: seq<Message>, to: seq<Fp>)
    requires Inv(s) && Agreement(s) && c in s.members && b.tab == TabOf(s, c) && |b.room| % 2 == 0
    ensures out == Outgoing(k, b, nonces, text) && |out| == |to| && Distinct(to)
    ensures forall fp :: fp in to <==> fp in Others(s, c)
    ensures forall i :: 0 <= i < |out| ==>
              && to[i] in b.tab.secrets
              && out[i] == Copy(k, b, Hex.Decode(b.room).value, nonces(i), text, to[i])
  {
    to := Recipients(b.tab, b.tab.peers);
    out := Outgoing(k, b, nonces, text);
    assert AgreesAt(s, c) && TabOk(s, s.links[c].owner, b.tab);
    RecipientsDistinct(b.tab, b.tab.peers);
    CopiesAt(k, b, Hex.Decode(b.room).value, nonces, text, to);
  }

  lemma ForwardToOther(s: Net, c: nat, m: Message) returns (d: nat)
    requires Shape(s) && Quiescent(s) && m.recipient in Others(s, c)
    ensures Forward(s, m) == Some(d) && d in s.members && d != c && s.links[d].owner == m.recipient
  {
    d :| d in s.members && d != c && s.links[d].owner == m.recipient;
    forall e | e in s.members ensures Quiet(s, e) {
    }
    FindsMember(s, s.members, d);
  }

  /**
   End-to-end delivery. In a quiet room that has formed by any disciplined run,
   every copy of a text goes to one other member, every other member gets
   exactly one, and decrypts it to the text that was sent.
   */
  lemma EndToEnd<P(!new), S(!new)>(k: Crypto<P, S>, start: Net, run: seq<Step>, privs: Fp -> P, c: nat, room: string,
                                   nonces: nat -> seq<Byte>, text: string)
    requires Lawful(k) && Initial(start) && DisciplinedRun(start, run)
    requires var s := After(start, run);
             Quiescent(s) && OwnKeys(k, s, privs) && c in s.members && Owned(s, c) && |room| % 2 == 0
    ensures var s := After(start, run);
            var a := s.links[c].owner;
            var out := Outgoing(k, Sender(privs(a), a, TabOf(s, c), room), nonces, text);
            && (forall i :: 0 <= i < |out| ==>
                  Forward(s, out[i]).Some? && Forward(s, out[i]).value in s.members && Forward(s, out[i]).value != c)
            && (forall d :: d in s.members && d != c ==>
                  exists i :: 0 <= i < |out| && GetsOnly(k, s, privs, out, i, d, text))
  {
    InitialInv(start);
    RunKeeps(start, run);
    var s := After(start, run);
    QuiescentAgreement(s);
    var a := s.links[c].owner;
    var out, to := CopiesGoToOthers(k, s, Sender(privs(a), a, TabOf(s, c), room), c, nonces, text);
    forall i | 0 <= i < |out|
      ensures Forward(s, out[i]).Some? && Forward(s, out[i]).value in s.members && Forward(s, out[i]).value != c
    {
      var d := ForwardToOther(s, c, out[i]);
    }
    forall d | d in s.members && d != c
      ensures exists i :: 0 <= i < |out| && GetsOnly(k, s, privs, out, i, d, text)
    {
      var i := GetsOne(k, s, privs, c, d, room, nonces, text, out, to);
    }
  }

  lemma GetsOne<P(!new), S(!new)>(k: Crypto<P, S>, s: Net, privs: Fp -> P, c: nat, d: nat, room: string,
                                  nonces: nat -> seq<Byte>, text: string, out: seq<Message>, to: seq<Fp>)
    returns (i: nat)
    requires Lawful(k) && Shape(s) && Quiescent(s) && Agreement(s) && OwnKeys(k, s, privs)
    requires c in s.members && d in s.members && c != d && |room| % 2 == 0
    requires |out| == |to| && Distinct(to) && forall fp :: fp in to <==> fp in Others(s, c)
    requires forall i :: 0 <= i < |out| ==>
               var b := Sender(privs(s.links[c].owner), s.links[c].owner, TabOf(s, c), room);
               && to[i] in b.tab.secrets
               && out[i] == Copy(k, b, Hex.Decode(b.room).value, nonces(i), text, to[i])
    ensures i < |out| && GetsOnly(k, s, privs, out, i, d, text)
  {
    var b := s.links[d].owner;
    assert b in Others(s, c);
    i :| 0 <= i < |to| && to[i] == b;
    CopyIsRead(k, s, privs, c, d, room, nonces(i), text);
    forall j | 0 <= j < |out| ensures Forward(s, out[j]) == Some(d) <==> j == i {
      assert out[j].recipient == to[j] && to[j] in Others(s, c);
      var e := ForwardToOther(s, c, out[j]);
    }
  }
}
