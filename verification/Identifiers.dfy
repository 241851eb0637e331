/** Identifiers of users and chats: the part before the first '@' names the thing, the part after it
    names the host that owns it (src/shared/sdcHelper.cpp). Chat names are generated from a decimal counter. */
module Identifiers {
  import opened Sequences

  type Host = string
  type UserID = string
  type ChatID = string

  /** getServerFromID */
  function HostOf(id: string): Host {
    var separator := IndexOf(id, '@');
    if separator < |id| then id[separator + 1..] else ""
  }

  /** getNameFromID */
  function NameOf(id: string): string {
    var separator := IndexOf(id, '@');
    if separator < |id| then id[..separator] else ""
  }

  predicate IsValidID(id: string) {
    !(NameOf(id) == "" || HostOf(id) == "")
  }

  /** Splitting undoes joining, whatever the host is, as long as the name holds no '@'. */
  lemma SplitJoin(name: string, host: Host)
    requires '@' !in name
    ensures NameOf(name + "@" + host) == name
    ensures HostOf(name + "@" + host) == host
  {
    var id := name + "@" + host;
    var i := IndexOf(id, '@');
    assert id[|name|] == '@';
    assert forall k :: 0 <= k < |name| ==> id[k] == name[k];
    forall k | 0 <= k < i
      ensures id[k] != '@'
    {
      assert id[..i][k] == id[k];
    }
    assert id[..|name|] == name;
    assert id[|name| + 1..] == host;
  }

  /** An ID is valid exactly when it is a nonempty, '@'-free name, an '@' and a nonempty host. */
  lemma ValidIDs(id: string)
    ensures IsValidID(id) <==>
            NameOf(id) != "" && HostOf(id) != "" && '@' !in NameOf(id) && id == NameOf(id) + "@" + HostOf(id)
    ensures '@' !in id ==> NameOf(id) == "" && HostOf(id) == ""
  {
    var i := IndexOf(id, '@');
    if i < |id| {
      assert id == id[..i] + [id[i]] + id[i + 1..];
    }
  }

  // ----- Decimal numerals -----

  function Digit(d: nat): (c: char)
    requires d < 10
    ensures '0' <= c <= '9'
  {
    '0' + d as char
  }

  /** The decimal numeral of `n`, as QString::arg(int) writes it. */
  function Numeral(n: nat): (s: string)
    ensures s != ""
    ensures '@' !in s
  {
    if n < 10 then [Digit(n)] else Numeral(n / 10) + [Digit(n % 10)]
  }

  function Value(s: string): (n: int)
  {
    if s == "" then 0 else 10 * Value(s[..|s| - 1]) + (s[|s| - 1] as int - '0' as int)
  }

  lemma {:induction false} NumeralValue(n: nat)
    ensures Value(Numeral(n)) == n
  {
    if n < 10 {
      assert Numeral(n)[..0] == "";
    } else {
      NumeralValue(n / 10);
      var s := Numeral(n);
      assert s[..|s| - 1] == Numeral(n / 10);
    }
  }

  lemma NumeralInjective(m: nat, n: nat)
    requires Numeral(m) == Numeral(n)
    ensures m == n
  {
    NumeralValue(m);
    NumeralValue(n);
  }

  // ----- Generated chat names -----

  const CHAT: string := "chat"

  /** The template "chat%1@" + host with the marker filled in, for a host that has no marker of its own. */
  function ChatName(i: nat, host: Host): ChatID {
    CHAT + Numeral(i) + "@" + host
  }

  /** A generated name resolves to the host that generated it, and two generated names are equal only if
      both the counter and the host are. */
  lemma ChatNameOwner(i: nat, host: Host)
    ensures HostOf(ChatName(i, host)) == host
    ensures NameOf(ChatName(i, host)) == "chat" + Numeral(i)
  {
    SplitJoin(CHAT + Numeral(i), host);
  }

  lemma ChatNameInjective(i: nat, host: Host, j: nat, host': Host)
    requires ChatName(i, host) == ChatName(j, host')
    ensures i == j && host == host'
  {
    ChatNameOwner(i, host);
    ChatNameOwner(j, host');
    var a, b := CHAT + Numeral(i), CHAT + Numeral(j);
    assert a == b;
    assert a[4..] == Numeral(i) && b[4..] == Numeral(j);
    NumeralInjective(i, j);
  }

  /** Among any |taken| + 1 generated names of one host, one is free. */
  lemma {:induction false} SomeNameIsFree(taken: set<ChatID>, host: Host, n: nat)
    requires forall i: nat :: i < n ==> ChatName(i, host) in taken
    ensures n <= |taken|
  {
    if n > 0 {
      var last := ChatName(n - 1, host);
      forall i: nat | i < n - 1
        ensures ChatName(i, host) in taken - {last}
      {
        if ChatName(i, host) == last {
          ChatNameInjective(i, host, n - 1, host);
        }
      }
      SomeNameIsFree(taken - {last}, host, n - 1);
    }
  }

  /** The least counter from `i` on whose name is free. */
  function FirstFree(taken: set<ChatID>, host: Host, i: nat): (n: nat)
    requires forall j: nat :: j < i ==> ChatName(j, host) in taken
    ensures ChatName(n, host) !in taken
    ensures forall j: nat :: j < n ==> ChatName(j, host) in taken
    decreases |taken| - i
  {
    SomeNameIsFree(taken, host, i);
    if ChatName(i, host) in taken then
      SomeNameIsFree(taken, host, i + 1);
      FirstFree(taken, host, i + 1)
    else i
  }

  function NextName(taken: set<ChatID>, host: Host): ChatID {
    ChatName(FirstFree(taken, host, 0), host)
  }

  /** Only which of the host's own names are taken matters. */
  lemma NextNameIs(taken: set<ChatID>, host: Host, n: nat)
    requires ChatName(n, host) !in taken
    requires forall j: nat :: j < n ==> ChatName(j, host) in taken
    ensures NextName(taken, host) == ChatName(n, host)
  {
    var m := FirstFree(taken, host, 0);
    assert !(m < n) && !(n < m);
  }
}
