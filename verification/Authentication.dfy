/** Registration and login at one server (src/server/authentication.cpp): every account, and so every session, is
    of a user of this host. */
module Authentication {
  import opened Wrappers
  import opened Identifiers
  import opened Security
  import opened UserDatabase

  const SALT_ITERATIONS: nat := 1000

  ghost function Repeated(salt: Bytes, n: nat): Bytes {
    if n == 0 then [] else Repeated(salt, n - 1) + salt
  }

  lemma {:induction false} RepeatedLength(salt: Bytes, n: nat)
    ensures |Repeated(salt, n)| == n * |salt|
  {
    if n > 0 {
      RepeatedLength(salt, n - 1);
      OneMore(n - 1, |salt|);
    }
  }

  /** It is the salt as many times as that, and nothing else. */
  lemma {:induction false} RepeatedIs(salt: Bytes, n: nat, i: nat)
    requires i < n
    ensures |Repeated(salt, n)| == n * |salt| && (i + 1) * |salt| == i * |salt| + |salt| <= n * |salt|
    ensures Repeated(salt, n)[i * |salt|..(i + 1) * |salt|] == salt
  {
    RepeatedLength(salt, n);
    RepeatedLength(salt, n - 1);
    OneMore(i, |salt|);
    OneMore(n - 1, |salt|);
    if i < n - 1 {
      RepeatedIs(salt, n - 1, i);
      Within(Repeated(salt, n - 1), salt, i * |salt|, (i + 1) * |salt|);
    }
  }

  lemma OneMore(n: nat, m: nat)
    ensures (n + 1) * m == n * m + m
  {}

  lemma Within(a: Bytes, b: Bytes, i: nat, j: nat)
    requires i <= j <= |a|
    ensures (a + b)[i..j] == a[i..j]
  {}

  datatype AuthenticationError = WrongHost | Refused | Database

  class Authority {
    const hostname: Host
    const db: Database
    /** The SHA-1 digest. Nothing is known about it. */
    const sha1: Bytes -> Bytes

    constructor (hostname: Host, db: Database, sha1: Bytes -> Bytes)
      ensures this.hostname == hostname && this.db == db && this.sha1 == sha1
    {
      this.hostname, this.db, this.sha1 := hostname, db, sha1;
    }

    /** All accounts are of users of this host. */
    ghost predicate Valid()
      reads this, db
    {
      db.Valid() && forall name :: name in db.Contents() ==> HostOf(name) == hostname
    }

    method SaltHashPassword(password: Bytes, salt: Bytes) returns (digest: Bytes)
      ensures digest == sha1(password + Repeated(salt, 1000))
    {
      var hashed := password;
      for i := 0 to SALT_ITERATIONS
        invariant hashed == password + Repeated(salt, i)
      {
        assert hashed + salt == password + (Repeated(salt, i) + salt);
        hashed := hashed + salt;
      }
      digest := sha1(hashed);
    }

    /** What login compares with the account. */
    ghost predicate Accepts(name: UserID, password: Bytes)
      reads this, db
    {
      name in db.Contents()
      && sha1(password + Repeated(db.Contents()[name].salt, SALT_ITERATIONS)) == db.Contents()[name].hash
    }

    method RegisterUser(name: UserID, publicKey: Bytes, password: Bytes, salt: Bytes) returns (r: Result<(), AuthenticationError>)
      requires Valid()
      modifies db
      ensures Valid()
      ensures HostOf(name) != hostname ==> r == Failure(WrongHost)
      ensures r.Success? ==> HostOf(name) == hostname && name !in old(db.Contents())
      ensures r.Success? ==> name in db.Contents() && db.Contents()[name].publicKey == publicKey
      ensures r.Success? ==> forall p: Bytes {:trigger Accepts(name, p)} ::
                Accepts(name, p) <==> sha1(p + Repeated(salt, 1000)) == sha1(password + Repeated(salt, 1000))
      ensures r.Success? ==> forall other :: other != name ==>
                (other in db.Contents() <==> other in old(db.Contents()))
                && (other in db.Contents() ==> db.Contents()[other] == old(db.Contents())[other])
      ensures r.Failure? ==> db.Contents() == old(db.Contents())
      ensures r.Failure? && HostOf(name) == hostname ==> r.error == AuthenticationError.Database
      ensures db.reliable && HostOf(name) == hostname && name !in old(db.Contents()) ==> r.Success?
    {
      if HostOf(name) != hostname {
        return Failure(WrongHost);
      }
      var hash := SaltHashPassword(password, salt);
      var created := CreateUser(db, name, publicKey, hash, salt);
      r := if created.Success? then Success(()) else Failure(Database);
    }

    /** The password check of login. An unknown user and a wrong password look the same. */
    method Verify(name: UserID, password: Bytes) returns (r: Result<(), AuthenticationError>)
      requires Valid()
      ensures r.Success? ==> Accepts(name, password)
      ensures db.reliable && Accepts(name, password) ==> r.Success?
      ensures r.Success? ==> HostOf(name) == hostname
      ensures r.Failure? ==> r.error == Refused
    {
      var proxy := GetProxy(db, name);
      if proxy.Failure? {
        return Failure(Refused);
      }
      var hash := SaltHashPassword(password, proxy.value.salt);
      if hash != proxy.value.hash {
        return Failure(Refused);
      }
      return Success(());
    }
  }
}
