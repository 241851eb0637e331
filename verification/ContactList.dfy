/** The contact list a client keeps on its server (src/client/backend/session.cpp): names joined by newlines, signed,
    encrypted, stored, and read back the other way round. Names are strings of 8-bit characters. */
module ContactList {
  import opened Wrappers
  import opened Sequences
  import opened Security
  import opened UserDatabase

  const NEWLINE: bv8 := 10
  const NUL: bv8 := 0

  // ----- The text -----

  /** What the names come to, one line each; the last newline is chopped off. */
  ghost function Lines(list: seq<Bytes>): Bytes {
    if list == [] then [] else Lines(list[..|list| - 1]) + list[|list| - 1] + [NEWLINE]
  }

  ghost function Chop(text: Bytes): Bytes {
    if text == [] then [] else text[..|text| - 1]
  }

  ghost function Text(list: seq<Bytes>): Bytes {
    Chop(Lines(list))
  }

  method Join(list: seq<Bytes>) returns (temp: Bytes)
    ensures temp == Text(list)
  {
    temp := [];
    assert list[..0] == [];
    for i := 0 to |list|
      invariant temp == Lines(list[..i])
    {
      assert list[..i + 1][..i] == list[..i];
      temp := temp + list[i] + [NEWLINE];
    }
    assert list[..|list|] == list;
    if temp != [] {
      temp := temp[..|temp| - 1];
    }
  }

  /** QString::split */
  function Split(s: Bytes): (parts: seq<Bytes>)
    ensures parts != []
    ensures forall part :: part in parts ==> NEWLINE !in part
    decreases |s|
  {
    var i := IndexOf(s, NEWLINE);
    if i == |s| then (assert s[..i] == s; [s]) else [s[..i]] + Split(s[i + 1..])
  }

  /** What is read from a text: a text of no bytes is an empty list, and any text ends at its first NUL. */
  function Read(text: Bytes): seq<Bytes> {
    if text == [] then [] else Split(text[..IndexOf(text, NUL)])
  }

  ghost predicate Plain(name: Bytes) {
    NEWLINE !in name && NUL !in name
  }

  lemma {:induction false} IndexIs(a: Bytes, c: bv8, b: Bytes)
    requires c !in a
    ensures IndexOf(a + [c] + b, c) == |a|
    ensures IndexOf(a, c) == |a|
  {
    if a != [] {
      IndexIs(a[1..], c, b);
      assert (a + [c] + b)[1..] == a[1..] + [c] + b;
    }
  }

  lemma {:induction false} SplitLines(list: seq<Bytes>)
    requires list != [] && forall name :: name in list ==> NEWLINE !in name
    ensures Split(Text(list)) == list
  {
    LinesFront(list);
    var first, rest := list[0], list[1..];
    if rest == [] {
      assert Lines(rest) == [];
      assert Text(list) == first;
      IndexIs(first, NEWLINE, []);
      assert first[..|first|] == first;
    } else {
      SplitLines(rest);
      assert Lines(rest) != [];
      assert Text(list) == first + [NEWLINE] + Text(rest);
      IndexIs(first, NEWLINE, Text(rest));
      assert (first + [NEWLINE] + Text(rest))[..|first|] == first;
      assert (first + [NEWLINE] + Text(rest))[|first| + 1..] == Text(rest);
    }
  }

  lemma {:induction false} LinesFront(list: seq<Bytes>)
    requires list != []
    ensures Lines(list) == list[0] + [NEWLINE] + Lines(list[1..])
  {
    var n := |list| - 1;
    if n == 0 {
      assert list[..0] == [] && list[1..] == [];
    } else {
      var tail := list[1..];
      LinesFront(list[..n]);
      assert list[..n][1..] == tail[..n - 1];
      AddsLast(list[..n][0] + [NEWLINE], Lines(tail[..n - 1]), list[n] + [NEWLINE]);
      AddsLast(Lines(tail[..n - 1]), list[n], [NEWLINE]);
      AddsLast(Lines(list[..n]), list[n], [NEWLINE]);
    }
  }

  lemma AddsLast(a: Bytes, b: Bytes, c: Bytes)
    ensures (a + b) + c == a + (b + c)
  {
  }

  lemma {:induction false} LinesOfPlain(list: seq<Bytes>)
    requires forall name :: name in list ==> NUL !in name
    ensures NUL !in Lines(list)
  {
    if list != [] {
      LinesOfPlain(list[..|list| - 1]);
    }
  }

  lemma {:induction false} SplitKeeps(s: Bytes, c: bv8)
    requires c !in s
    ensures forall part :: part in Split(s) ==> c !in part
    decreases |s|
  {
    var i := IndexOf(s, NEWLINE);
    if i < |s| {
      SplitKeeps(s[i + 1..], c);
    }
  }

  lemma SplitNothing()
    ensures Split([]) == [[]]
  {}

  /** Reading gives back what was joined exactly if no name holds a newline or a NUL, and the list is not the one
      that holds a single empty name. */
  lemma ReadsBack(list: seq<Bytes>)
    ensures Read(Text(list)) == list <==> (forall name :: name in list ==> Plain(name)) && list != [[]]
  {
    var text := Text(list);
    var cut := text[..IndexOf(text, NUL)];
    SplitKeeps(cut, NUL);
    SplitNothing();
    if list == [[]] {
      assert Lines(list[..0]) == [] && Lines(list) == [NEWLINE];
    } else if list != [] && forall name :: name in list ==> Plain(name) {
      SplitLines(list);
      LinesOfPlain(list);
      assert NUL !in text;
      assert IndexOf(text, NUL) == |text| && cut == text;
    }
  }

  // ----- The container -----

  /** The user's own keys and the cipher: what is needed to seal a container and to open it. */
  datatype Keys = Keys(cipher: BlockCipher, pair: KeyPair, signer: Signer)

  function Sealed(keys: Keys, random: Randomness, text: Bytes): Result<Container, Security.Error> {
    var data :- EncryptRSA(keys.cipher, keys.pair, random, text);
    Success(Container(data, keys.signer.sign(text)))
  }

  datatype OpenError = Unreadable | InvalidSignature | Unavailable

  /** What a client makes of a container. One without data is an empty list. */
  function Opened(keys: Keys, container: Container): Result<seq<Bytes>, OpenError> {
    if container.data == [] then Success([])
    else
      match DecryptRSA(keys.cipher, keys.pair, container.data)
      case Failure(_) => Failure(Unreadable)
      case Success(text) =>
        if keys.signer.verify(text, container.signature) then Success(Read(text)) else Failure(InvalidSignature)
  }

  /** A container opens to what was sealed in it, and the signature is its user's. */
  lemma ContainerOpens(keys: Keys, random: Randomness, text: Bytes)
    requires keys.pair.Valid() && keys.pair.bits % 8 == 0 && Fits(keys.pair, random) && keys.signer.Valid()
    ensures Sealed(keys, random, text).Success?
    ensures var container := Sealed(keys, random, text).value;
      && container.data != [] && DecryptRSA(keys.cipher, keys.pair, container.data) == Success(text)
      && keys.signer.verify(text, container.signature)
  {
    RSARoundTrip(keys.cipher, keys.pair, random, text);
    var data := EncryptRSA(keys.cipher, keys.pair, random, text).value;
    assert |data| >= |keys.pair.seal(random.seed, random.symkey)| > 0;
    assert keys.signer.verify(text, keys.signer.sign(text));
  }

  /** End to end, a contact list comes back unchanged exactly if its names are plain and it is not the list of one
      empty name. */
  lemma ContactsComeBack(keys: Keys, random: Randomness, list: seq<Bytes>)
    requires keys.pair.Valid() && keys.pair.bits % 8 == 0 && Fits(keys.pair, random) && keys.signer.Valid()
    ensures Sealed(keys, random, Text(list)).Success?
    ensures Opened(keys, Sealed(keys, random, Text(list)).value) == Success(list) <==>
            (forall name :: name in list ==> Plain(name)) && list != [[]]
  {
    ContainerOpens(keys, random, Text(list));
    ReadsBack(list);
  }

  /** If a container holds any data, the user's own signature is on the very text that it opens to. */
  ghost predicate IsSigned(keys: Keys, container: Container) {
    container.data == []
    || exists text ::
         DecryptRSA(keys.cipher, keys.pair, container.data) == Success(text) && keys.signer.verify(text, container.signature)
  }

  // ----- At the client -----

  method RunSaveContactList(proxy: UserDbProxy, keys: Keys, random: Randomness, list: seq<Bytes>) returns (ok: bool)
    requires proxy.db.Valid()
    modifies proxy.db
    ensures proxy.db.Valid() && proxy.db.users == old(proxy.db.users)
    ensures ok ==> Sealed(keys, random, Text(list)).Success?
    ensures ok && proxy.Live() ==>
      && proxy.username in proxy.db.Contents()
      && proxy.db.Contents()[proxy.username].contacts == Some(Sealed(keys, random, Text(list)).value)
    ensures proxy.db.reliable && proxy.Live() && Sealed(keys, random, Text(list)).Success? ==> ok
  {
    var temp := Join(list);
    var container := Sealed(keys, random, temp);
    if container.Failure? {
      return false;
    }
    var r := proxy.SaveContactList(container.value);
    ok := r.Success?;
  }

  method RunRetrieveContactList(proxy: UserDbProxy, keys: Keys) returns (r: Result<seq<Bytes>, OpenError>)
    requires proxy.db.Valid()
    ensures proxy.Live() && r != Failure(Unavailable) ==>
      && proxy.username in proxy.db.Contents()
      && r == Opened(keys, proxy.db.Contents()[proxy.username].contacts.GetOr(EMPTY))
      && (r.Success? ==> IsSigned(keys, proxy.db.Contents()[proxy.username].contacts.GetOr(EMPTY)))
    ensures proxy.db.reliable ==> r != Failure(Unavailable)
  {
    var container := proxy.RetrieveContactList();
    if container.Failure? {
      return Failure(Unavailable);
    }
    r := Opened(keys, container.value);
  }

  /** What a user has saved is what the user's next login finds. */
  method SaveAndRetrieve(proxy: UserDbProxy, keys: Keys, random: Randomness, list: seq<Bytes>)
    returns (r: Result<seq<Bytes>, OpenError>)
    requires proxy.db.Valid() && proxy.db.reliable && proxy.Live()
    requires keys.pair.Valid() && keys.pair.bits % 8 == 0 && Fits(keys.pair, random) && keys.signer.Valid()
    modifies proxy.db
    ensures proxy.db.Valid()
    ensures r == Success(list) <==> (forall name :: name in list ==> Plain(name)) && list != [[]]
  {
    ContactsComeBack(keys, random, list);
    var _ := RunSaveContactList(proxy, keys, random, list);
    r := RunRetrieveContactList(proxy, keys);
  }
}
