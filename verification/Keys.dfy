/** The insert-only signing key table, the tokenizer that caches it, and the key set it is served as. */
module Keys {
  import opened Base
  import opened Schema
  import opened Tokens

  datatype Pem = Encoded(key: Key) | Garbled

  function Parse(pem: Pem): Option<Key> {
    if pem.Encoded? then Some(pem.key) else None
  }

  datatype SigningKey = SigningKey(kid: Id, private: Pem, public: Pem, created: Time)

  /** One entry of an RFC 7517 key set (section 5). */
  datatype Jwk = Jwk(kid: Id, key: Key)

  /** Both halves parse, to the same pair: what generateSigningKey writes. */
  predicate Paired(row: SigningKey) {
    row.private.Encoded? && row.public.Encoded? && row.private.key == row.public.key
  }

  ghost predicate Sorted(rows: seq<SigningKey>) {
    forall i, j :: 0 <= i < j < |rows| ==> rows[i].created <= rows[j].created
  }

  ghost predicate DistinctKids(rows: seq<SigningKey>) {
    forall i, j :: 0 <= i < j < |rows| ==> rows[i].kid != rows[j].kid
  }

  /** What SELECT ... ORDER BY created may answer: every row once, ties in any order. */
  ghost predicate Listing(rows: seq<SigningKey>, answer: seq<SigningKey>) {
    multiset(answer) == multiset(rows) && Sorted(answer)
  }

  lemma ListingHasTheRows(rows: seq<SigningKey>, answer: seq<SigningKey>)
    requires Listing(rows, answer)
    ensures |answer| == |rows|
    ensures forall row :: row in rows <==> row in answer
  {
    assert |multiset(answer)| == |multiset(rows)|;
    forall row ensures row in rows <==> row in answer {
      assert row in rows <==> row in multiset(rows);
      assert row in answer <==> row in multiset(answer);
    }
  }

  ghost predicate AllParse(rows: seq<SigningKey>) {
    forall row :: row in rows ==> row.public.Encoded?
  }

  /** kid to public key, as the reload loop builds it: a later row replaces an earlier one. */
  function PublicKeys(rows: seq<SigningKey>): (keys: map<Id, Key>)
    requires forall i :: 0 <= i < |rows| ==> rows[i].public.Encoded?
  {
    if rows == [] then map[] else PublicKeys(rows[..|rows| - 1])[rows[|rows| - 1].kid := rows[|rows| - 1].public.key]
  }

  lemma {:induction false} PublicKeysHasEveryKid(rows: seq<SigningKey>)
    requires forall i :: 0 <= i < |rows| ==> rows[i].public.Encoded?
    requires DistinctKids(rows)
    ensures forall row :: row in rows ==> row.kid in PublicKeys(rows) && PublicKeys(rows)[row.kid] == row.public.key
    ensures forall kid :: kid in PublicKeys(rows) ==> exists row :: row in rows && row.kid == kid
  {
    if rows != [] {
      var last := |rows| - 1;
      PublicKeysHasEveryKid(rows[..last]);
      assert rows == rows[..last] + [rows[last]];
      forall row | row in rows
        ensures row.kid in PublicKeys(rows) && PublicKeys(rows)[row.kid] == row.public.key
      {
        if row in rows[..last] {
          var i :| 0 <= i < last && rows[i] == row;
          assert rows[i].kid != rows[last].kid;
        }
      }
    }
  }

  /** The signing_keys table behind SigningKeyService. */
  class SigningKeyService {
    var rows: seq<SigningKey>

    ghost predicate Valid() reads this {
      Sorted(rows) && DistinctKids(rows)
    }

    constructor ()
      ensures Valid() && rows == []
    {
      rows := [];
    }

    /** INSERT; `created` is the database clock, which does not run backwards. */
    method Create(row: SigningKey) returns (ok: bool)
      requires Valid() && forall i :: 0 <= i < |rows| ==> rows[i].created <= row.created
      modifies this
      ensures Valid()
      ensures ok <==> forall i :: 0 <= i < |old(rows)| ==> old(rows)[i].kid != row.kid
      ensures rows == if ok then old(rows) + [row] else old(rows)
    {
      ok := true;
      for i := 0 to |rows|
        invariant ok <==> forall j :: 0 <= j < i ==> rows[j].kid != row.kid
      {
        if rows[i].kid == row.kid { ok := false; }
      }
      if ok { rows := rows + [row]; }
    }

    method Keys() returns (answer: seq<SigningKey>)
      requires Valid()
      ensures Listing(rows, answer)
    {
      answer := rows;
    }

    /** Initialize generates the first key and only the first. */
    method Initialize(kid: Id, key: Key, now: Time)
      requires Valid() && forall i :: 0 <= i < |rows| ==> rows[i].created <= now
      modifies this
      ensures Valid()
      ensures rows == if old(rows) == [] then [SigningKey(kid, Encoded(key), Encoded(key), now)] else old(rows)
    {
      if rows == [] {
        var ok := Create(SigningKey(kid, Encoded(key), Encoded(key), now));
      }
    }

    /** Serves every key of the table, or nothing at all when one does not parse. */
    method Jwks() returns (jwks: Option<seq<Jwk>>)
      requires Valid()
      ensures jwks.Some? <==> AllParse(rows)
      ensures jwks.Some? ==> |jwks.value| == |rows|
      ensures jwks.Some? ==> forall row :: row in rows ==> Jwk(row.kid, row.public.key) in jwks.value
      ensures jwks.Some? ==>
                forall jwk :: jwk in jwks.value ==>
                                exists row :: row in rows && row.public.Encoded? && jwk == Jwk(row.kid, row.public.key)
    {
      var answer := Keys();
      ListingHasTheRows(rows, answer);
      var keys: seq<Jwk> := [];
      for i := 0 to |answer|
        invariant |keys| == i
        invariant forall j :: 0 <= j < i ==>
                    answer[j].public.Encoded? && keys[j] == Jwk(answer[j].kid, answer[j].public.key)
      {
        var public := Parse(answer[i].public);
        if public.None? {
          assert answer[i] in rows;
          return None;
        }
        keys := keys + [Jwk(answer[i].kid, public.value)];
      }
      forall row | row in rows
        ensures row.public.Encoded? && Jwk(row.kid, row.public.key) in keys
      {
        assert row in answer;
        var j :| 0 <= j < |answer| && answer[j] == row;
        assert keys[j] == Jwk(row.kid, row.public.key);
      }
      return Some(keys);
    }
  }

  /** What a reload makes of the rows it read; nothing when it fails. */
  ghost function RingOf(rows: seq<SigningKey>): Option<Keyring> {
    if rows == [] || !(forall i :: 0 <= i < |rows| ==> rows[i].public.Encoded?) ||
       rows[|rows| - 1].private.Garbled? then None
    else Some(Keyring(rows[|rows| - 1].kid, rows[|rows| - 1].private.key, PublicKeys(rows)))
  }

  /** DefaultTokenizer's cached key set. */
  class Tokenizer {
    const config: Issuance
    var kid: Id
    var key: Key
    var public: map<Id, Key>

    function Ring(): Keyring reads this {
      Keyring(kid, key, public)
    }

    /** NewDefaultTokenizer fails when the first reload does, so a tokenizer always starts loaded. */
    constructor (config: Issuance, ring: Keyring)
      ensures this.config == config && Ring() == ring
    {
      this.config := config;
      kid, key, public := ring.kid, ring.key, ring.public;
    }

    /** Swaps in the rows read, or keeps the old ring whole on any failure. */
    method ReloadKeys(keys: seq<SigningKey>) returns (ok: bool)
      modifies this
      ensures ok <==> RingOf(keys).Some?
      ensures Ring() == if ok then RingOf(keys).value else old(Ring())
    {
      if |keys| == 0 {
        return false;
      }
      var publicKeys: map<Id, Key> := map[];
      for i := 0 to |keys|
        invariant forall j :: 0 <= j < i ==> keys[j].public.Encoded?
        invariant publicKeys == PublicKeys(keys[..i])
        invariant Ring() == old(Ring())
      {
        var parsed := Parse(keys[i].public);
        if parsed.None? {
          return false;
        }
        publicKeys := publicKeys[keys[i].kid := parsed.value];
        assert keys[..i + 1][..i] == keys[..i];
      }
      assert keys[..|keys|] == keys;
      var latest := keys[|keys| - 1];
      var private := Parse(latest.private);
      if private.None? {
        return false;
      }
      kid, key, public := latest.kid, private.value, publicKeys;
      return true;
    }

    method CreateToken(now: Time, use: Use, tenant: Tenant, email: Email, client: ClientId, jti: Id)
      returns (token: Jwt)
      ensures token == Sign(Ring(), config, now, use, tenant, email, client, jti)
    {
      var expires := now + (if use == AccessUse then config.accessExpiry else config.refreshExpiry);
      var claims := Claims(tenant, client, email, jti, config.issuer, config.audience,
                           NumericDate(expires), NumericDate(now));
      token := Jwt(kid, key, use, claims);
    }

    method ValidateToken(now: Time, use: Use, token: Jwt) returns (r: Result<Claims>)
      ensures r == Validate(Ring(), config, now, use, token)
    {
      if token.use != use {
        return Err(TokenInvalid);
      }
      if token.kid !in public {
        return Err(TokenInvalid);
      }
      var claims := token.claims;
      if public[token.kid] != token.key || claims.issuer != config.issuer || claims.audience != config.audience ||
         now < claims.notBefore || now >= claims.expires {
        return Err(TokenInvalid);
      }
      return Ok(claims);
    }
  }

  // ---- rotation under traffic ----

  /** Rows a reload has read and not yet swapped in, and how many rows the table had then. */
  datatype Reading = Reading(extent: nat, answer: seq<SigningKey>)

  /**
   * The table, one tokenizer and any number of its reloads under way: inserts, other reloads and
   * other work land between a read and its swap. The ring came from a read of `extent` rows.
   */
  datatype Rotation = Rotation(
    now: Time, rows: seq<SigningKey>, readings: map<nat, Reading>, extent: nat, ring: Keyring)

  datatype Step =
    | Insert(row: SigningKey)
    | ReadKeys(reload: nat, answer: seq<SigningKey>)
    | Swap(reload: nat)
    | Tick(delay: nat)

  ghost predicate Enabled(s: Rotation, step: Step) {
    match step
    case Insert(row) =>
      row.created == s.now && Paired(row) && forall i :: 0 <= i < |s.rows| ==> s.rows[i].kid != row.kid
    case ReadKeys(reload, answer) => reload !in s.readings && Listing(s.rows, answer)
    case Swap(reload) => reload in s.readings
    case Tick(_) => true
  }

  ghost function Next(s: Rotation, step: Step): Rotation {
    match step
    case Insert(row) => s.(rows := s.rows + [row])
    case ReadKeys(reload, answer) => s.(readings := s.readings[reload := Reading(|s.rows|, answer)])
    case Swap(reload) =>
      if reload !in s.readings then s
      else
        var reading, rest := s.readings[reload], s.readings - {reload};
        var read := RingOf(reading.answer);
        if read.None? then s.(readings := rest)
        else s.(readings := rest, extent := reading.extent, ring := read.value)
    case Tick(delay) => s.(now := s.now + delay)
  }

  ghost function Run(s: Rotation, steps: seq<Step>): Rotation
    decreases |steps|
  {
    if steps == [] then s else Run(Next(s, steps[0]), steps[1..])
  }

  ghost predicate AllEnabled(s: Rotation, steps: seq<Step>)
    decreases |steps|
  {
    steps == [] || (Enabled(s, steps[0]) && AllEnabled(Next(s, steps[0]), steps[1..]))
  }

  /** The ring holds the keys of these rows and no other, and signs with one of them. */
  ghost predicate Cached(rows: seq<SigningKey>, ring: Keyring) {
    && (forall row :: row in rows ==> row.kid in ring.public && row.public == Encoded(ring.public[row.kid]))
    && (forall kid :: kid in ring.public ==> exists row :: row in rows && row.kid == kid)
    && (exists row :: row in rows && row.kid == ring.kid && row.public == Encoded(ring.key))
  }

  ghost predicate ReadFrom(rows: seq<SigningKey>, reading: Reading) {
    0 < reading.extent <= |rows| && Listing(rows[..reading.extent], reading.answer)
  }

  ghost predicate Consistent(s: Rotation) {
    && DistinctKids(s.rows)
    && (forall row :: row in s.rows ==> Paired(row))
    && 0 < s.extent <= |s.rows| && Cached(s.rows[..s.extent], s.ring)
    && (forall reload :: reload in s.readings ==> ReadFrom(s.rows, s.readings[reload]))
  }

  /** Time passes, and rows are only added at the end. */
  ghost predicate Grows(s: Rotation, u: Rotation) {
    s.now <= u.now && |s.rows| <= |u.rows| && u.rows[..|s.rows|] == s.rows
  }

  lemma ListingKeepsKidsDistinct(rows: seq<SigningKey>, answer: seq<SigningKey>)
    requires Listing(rows, answer) && DistinctKids(rows)
    ensures DistinctKids(answer)
  {
    ListingHasTheRows(rows, answer);
    forall i, j | 0 <= i < j < |answer| ensures answer[i].kid != answer[j].kid {
      if answer[i].kid == answer[j].kid {
        assert answer[i] in rows && answer[j] in rows;
        assert answer[i] == answer[j];
        TwiceInSequence(answer, i, j);
        assert multiset(rows)[answer[i]] >= 2;
        OnceInRows(rows, answer[i]);
      }
    }
  }

  lemma TwiceInSequence(rows: seq<SigningKey>, i: nat, j: nat)
    requires i < j < |rows| && rows[i] == rows[j]
    ensures multiset(rows)[rows[i]] >= 2
  {
    assert rows == rows[..j] + [rows[j]] + rows[j + 1..];
    assert rows[i] in rows[..j];
  }

  lemma {:induction false} OnceInRows(rows: seq<SigningKey>, row: SigningKey)
    requires DistinctKids(rows)
    ensures multiset(rows)[row] <= 1
  {
    if rows != [] {
      var last := |rows| - 1;
      assert rows == rows[..last] + [rows[last]];
      OnceInRows(rows[..last], row);
      if row == rows[last] {
        assert row !in rows[..last];
      }
    }
  }

  /** The rows of a table parse to a ring with all their keys. */
  lemma PairedRowsMakeARing(rows: seq<SigningKey>, answer: seq<SigningKey>)
    requires rows != [] && DistinctKids(rows) && (forall row :: row in rows ==> Paired(row)) && Listing(rows, answer)
    ensures RingOf(answer).Some? && Cached(rows, RingOf(answer).value)
  {
    ListingHasTheRows(rows, answer);
    ListingKeepsKidsDistinct(rows, answer);
    assert forall i :: 0 <= i < |answer| ==> answer[i] in rows;
    PublicKeysHasEveryKid(answer);
    var latest := answer[|answer| - 1];
    assert latest in answer && latest in rows;
    hide PublicKeys;
  }

  lemma PrefixStays(rows: seq<SigningKey>, row: SigningKey, n: nat)
    requires n <= |rows|
    ensures (rows + [row])[..n] == rows[..n]
  {
  }

  lemma InsertKeepsConsistent(s: Rotation, row: SigningKey)
    requires Consistent(s) && Enabled(s, Insert(row))
    ensures Consistent(Next(s, Insert(row)))
  {
    var u := Next(s, Insert(row));
    PrefixStays(s.rows, row, s.extent);
    forall reload | reload in u.readings ensures ReadFrom(u.rows, u.readings[reload]) {
      PrefixStays(s.rows, row, s.readings[reload].extent);
    }
    assert forall r :: r in u.rows ==> r in s.rows || r == row;
    hide Cached, Listing, Paired;
  }

  lemma ReadKeepsConsistent(s: Rotation, reload: nat, answer: seq<SigningKey>)
    requires Consistent(s) && Enabled(s, ReadKeys(reload, answer))
    ensures Consistent(Next(s, ReadKeys(reload, answer)))
  {
    assert s.rows[..|s.rows|] == s.rows;
    hide Cached, Listing, Paired, DistinctKids;
  }

  lemma PrefixIsPaired(rows: seq<SigningKey>, n: nat)
    requires n <= |rows| && DistinctKids(rows) && forall row :: row in rows ==> Paired(row)
    ensures DistinctKids(rows[..n]) && forall row :: row in rows[..n] ==> Paired(row)
  {
    assert forall row :: row in rows[..n] ==> row in rows;
    hide Paired;
  }

  lemma ReadingMakesARing(s: Rotation, reload: nat)
    requires Consistent(s) && reload in s.readings
    ensures
      var reading := s.readings[reload];
      && 0 < reading.extent <= |s.rows| && RingOf(reading.answer).Some?
      && Cached(s.rows[..reading.extent], RingOf(reading.answer).value)
  {
    var reading := s.readings[reload];
    assert ReadFrom(s.rows, reading);
    PrefixIsPaired(s.rows, reading.extent);
    hide RingOf, Cached, Listing, Paired, DistinctKids;
    PairedRowsMakeARing(s.rows[..reading.extent], reading.answer);
  }

  lemma SwapKeepsConsistent(s: Rotation, reload: nat)
    requires Consistent(s) && reload in s.readings
    ensures Consistent(Next(s, Swap(reload)))
    ensures Next(s, Swap(reload)).extent == s.readings[reload].extent
  {
    ReadingMakesARing(s, reload);
    hide RingOf, Cached, ReadFrom, Paired, DistinctKids;
  }

  lemma NextGrows(s: Rotation, step: Step)
    ensures Grows(s, Next(s, step))
  {
    assert s.rows[..|s.rows|] == s.rows;
    if step.Insert? { PrefixStays(s.rows, step.row, |s.rows|); }
    hide RingOf;
  }

  lemma TickKeepsConsistent(s: Rotation, delay: nat)
    requires Consistent(s)
    ensures Consistent(Next(s, Tick(delay)))
  {
    hide Cached, ReadFrom, Paired, DistinctKids, RingOf;
  }

  lemma NextKeepsConsistent(s: Rotation, step: Step)
    requires Consistent(s) && Enabled(s, step)
    ensures Consistent(Next(s, step)) && Grows(s, Next(s, step))
  {
    NextGrows(s, step);
    assert step.Swap? ==> step.reload in s.readings;
    hide *;
    match step
    case Insert(row) => InsertKeepsConsistent(s, row);
    case ReadKeys(reload, answer) => ReadKeepsConsistent(s, reload, answer);
    case Swap(reload) => SwapKeepsConsistent(s, reload);
    case Tick(delay) => TickKeepsConsistent(s, delay);
  }

  lemma {:induction false} RunKeepsConsistent(s: Rotation, steps: seq<Step>)
    requires Consistent(s) && AllEnabled(s, steps)
    ensures Consistent(Run(s, steps)) && Grows(s, Run(s, steps))
    decreases |steps|
  {
    hide Next, Enabled, Consistent;
    if steps != [] {
      NextKeepsConsistent(s, steps[0]);
      RunKeepsConsistent(Next(s, steps[0]), steps[1..]);
      GrowsOn(s, Next(s, steps[0]), Run(s, steps));
      hide Grows;
    }
  }

  lemma GrowsOn(s: Rotation, u: Rotation, v: Rotation)
    requires Grows(s, u) && Grows(u, v)
    ensures Grows(s, v)
  {
    assert v.rows[..|u.rows|][..|s.rows|] == v.rows[..|s.rows|];
  }

  /** The keys a served JWKS holds, when every row parses. */
  ghost predicate Served(rows: seq<SigningKey>, jwk: Jwk) {
    exists row :: row in rows && row.kid == jwk.kid && row.public == Encoded(jwk.key)
  }

  /** A kid is cached exactly when its row is among those the ring was read from. */
  lemma CachedIff(s: Rotation, j: nat)
    requires Consistent(s) && j < |s.rows|
    ensures s.rows[j].kid in s.ring.public <==> j < s.extent
    ensures j < s.extent ==> s.rows[j].public == Encoded(s.ring.public[s.rows[j].kid])
  {
    var read := s.rows[..s.extent];
    if j < s.extent {
      assert read[j] == s.rows[j] && read[j] in read;
    } else {
      assert forall i :: 0 <= i < |read| ==> read[i].kid != s.rows[j].kid;
    }
  }

  /** The row a ring signs with. */
  ghost predicate SignsWith(s: Rotation, j: nat) {
    j < |s.rows| && s.rows[j].kid == s.ring.kid
  }

  lemma SigningRow(s: Rotation, j: nat)
    requires Consistent(s) && SignsWith(s, j)
    ensures j < s.extent && s.rows[j].public == Encoded(s.ring.key)
  {
    var read := s.rows[..s.extent];
    var row :| row in read && row.kid == s.ring.kid && row.public == Encoded(s.ring.key);
    var i :| 0 <= i < |read| && read[i] == row;
    assert s.rows[i] == row;
  }

  /**
   * However many reloads overlap, with whatever inserts between: a token minted at any moment
   * validates at a later one exactly when it is unexpired and the read that was swapped in last
   * was made when its signing key was already in the table. It always verifies against the
   * served key set.
   */
  lemma TokenOutlivesReloadsIff(
    s: Rotation, steps: seq<Step>, j: nat, config: Issuance, use: Use,
    tenant: Tenant, email: Email, client: ClientId, jti: Id)
    requires Consistent(s) && AllEnabled(s, steps) && SignsWith(s, j)
    ensures
      var token := Sign(s.ring, config, s.now, use, tenant, email, client, jti);
      var u := Run(s, steps);
      && (Validate(u.ring, config, u.now, use, token) == Ok(token.claims) <==>
            u.now < token.claims.expires && j < u.extent)
      && Served(u.rows, Jwk(token.kid, token.key))
      && AllParse(u.rows)
  {
    RunKeepsConsistent(s, steps);
    var u := Run(s, steps);
    SigningRow(s, j);
    assert u.rows[j] == u.rows[..|s.rows|][j] == s.rows[j];
    CachedIff(u, j);
    assert NumericDate(s.now) <= s.now <= u.now;
    assert u.rows[j] in u.rows;
    hide Cached, Run, AllEnabled;
  }

  // ---- one reload at a time ----

  /** No read starts while another waits for its swap. */
  ghost predicate OneAtATime(s: Rotation, steps: seq<Step>)
    decreases |steps|
  {
    steps == [] ||
    ((steps[0].ReadKeys? ==> s.readings == map[]) && OneAtATime(Next(s, steps[0]), steps[1..]))
  }

  /** At most one reload is under way, and its read is no older than the ring's. */
  ghost predicate Forward(s: Rotation) {
    && (forall p, q :: p in s.readings && q in s.readings ==> p == q)
    && (forall p :: p in s.readings ==> s.extent <= s.readings[p].extent)
  }

  lemma NextMovesForward(s: Rotation, step: Step)
    requires Consistent(s) && Forward(s) && Enabled(s, step) && (step.ReadKeys? ==> s.readings == map[])
    ensures Forward(Next(s, step)) && s.extent <= Next(s, step).extent
  {
    if step.Swap? { SwapKeepsConsistent(s, step.reload); }
    hide RingOf, Cached, Listing, Paired, DistinctKids;
  }

  lemma {:induction false} RunMovesForward(s: Rotation, steps: seq<Step>)
    requires Consistent(s) && Forward(s) && AllEnabled(s, steps) && OneAtATime(s, steps)
    ensures s.extent <= Run(s, steps).extent
    decreases |steps|
  {
    hide Next, Enabled, Consistent, Forward;
    if steps != [] {
      NextMovesForward(s, steps[0]);
      NextKeepsConsistent(s, steps[0]);
      RunMovesForward(Next(s, steps[0]), steps[1..]);
    }
  }

  /** With one reload at a time no token is orphaned: it validates exactly until its exp. */
  lemma RotationNeverOrphans(
    s: Rotation, steps: seq<Step>, config: Issuance, use: Use,
    tenant: Tenant, email: Email, client: ClientId, jti: Id)
    requires Consistent(s) && Forward(s) && AllEnabled(s, steps) && OneAtATime(s, steps)
    ensures
      var token := Sign(s.ring, config, s.now, use, tenant, email, client, jti);
      var u := Run(s, steps);
      && (Validate(u.ring, config, u.now, use, token) == Ok(token.claims) <==> u.now < token.claims.expires)
      && Served(u.rows, Jwk(token.kid, token.key))
      && AllParse(u.rows)
  {
    RunMovesForward(s, steps);
    var j := HasSigningRow(s);
    SigningRow(s, j);
    TokenOutlivesReloadsIff(s, steps, j, config, use, tenant, email, client, jti);
    hide Consistent, Run, AllEnabled, Validate, Served, AllParse;
  }

  lemma HasSigningRow(s: Rotation) returns (j: nat)
    requires Consistent(s)
    ensures SignsWith(s, j)
  {
    var read := s.rows[..s.extent];
    var row :| row in read && row.kid == s.ring.kid && row.public == Encoded(s.ring.key);
    j :| 0 <= j < |read| && read[j] == row;
    assert s.rows[j] == row;
  }

  // ---- two reloads that overlap ----

  /** One reload reads, a key goes in, another reload reads and swaps. */
  function Overlap(older: seq<SigningKey>, row: SigningKey): seq<Step> {
    [ReadKeys(0, older), Insert(row), ReadKeys(1, older + [row]), Swap(1)]
  }

  lemma LongerListing(rows: seq<SigningKey>, older: seq<SigningKey>, row: SigningKey)
    requires Listing(rows, older) && forall i :: 0 <= i < |rows| ==> rows[i].created <= row.created
    ensures Listing(rows + [row], older + [row])
  {
    ListingHasTheRows(rows, older);
    assert forall i :: 0 <= i < |older| ==> older[i] in rows;
  }

  /** The states the overlap goes through. */
  ghost function Overlapped(s: Rotation, older: seq<SigningKey>, row: SigningKey): seq<Rotation> {
    var read := s.(readings := s.readings[0 := Reading(|s.rows|, older)]);
    var longer := read.(rows := s.rows + [row]);
    var reread := longer.(readings := longer.readings[1 := Reading(|s.rows| + 1, older + [row])]);
    [read, longer, reread, Next(reread, Swap(1))]
  }

  lemma OverlapSteps(s: Rotation, older: seq<SigningKey>, row: SigningKey)
    requires Consistent(s) && s.readings == map[] && Listing(s.rows, older) && Enabled(s, Insert(row))
    requires forall i :: 0 <= i < |s.rows| ==> s.rows[i].created <= s.now
    ensures
      var (states, steps) := (Overlapped(s, older, row), Overlap(older, row));
      && Enabled(s, steps[0]) && Next(s, steps[0]) == states[0]
      && forall i :: 0 < i < 4 ==> Enabled(states[i - 1], steps[i]) && Next(states[i - 1], steps[i]) == states[i]
  {
    LongerListing(s.rows, older, row);
    hide Listing, RingOf, Cached, DistinctKids, Paired;
  }

  lemma RunFour(s: Rotation, steps: seq<Step>, states: seq<Rotation>)
    requires |steps| == 4 && |states| == 4 && Enabled(s, steps[0]) && Next(s, steps[0]) == states[0]
    requires forall i :: 0 < i < 4 ==> Enabled(states[i - 1], steps[i]) && Next(states[i - 1], steps[i]) == states[i]
    ensures AllEnabled(s, steps) && Run(s, steps) == states[3]
  {
    hide Next, Enabled;
    assert steps[1..][1..] == steps[2..] && steps[2..][1..] == steps[3..] && steps[3..][1..] == [];
    assert AllEnabled(states[2], steps[3..]) && Run(states[2], steps[3..]) == states[3];
    assert AllEnabled(states[1], steps[2..]) && Run(states[1], steps[2..]) == states[3];
    assert AllEnabled(states[0], steps[1..]) && Run(states[0], steps[1..]) == states[3];
  }

  lemma OverlapStatesHold(s: Rotation, older: seq<SigningKey>, row: SigningKey)
    requires Consistent(s) && s.readings == map[] && Listing(s.rows, older) && Enabled(s, Insert(row))
    requires forall i :: 0 <= i < |s.rows| ==> s.rows[i].created <= s.now
    ensures var states := Overlapped(s, older, row); Consistent(states[2]) && Consistent(states[3])
  {
    var states, steps := Overlapped(s, older, row), Overlap(older, row);
    OverlapSteps(s, older, row);
    hide Consistent, Listing, Enabled, Next, Overlapped;
    NextKeepsConsistent(s, steps[0]);
    NextKeepsConsistent(states[0], steps[1]);
    NextKeepsConsistent(states[1], steps[2]);
    NextKeepsConsistent(states[2], steps[3]);
  }

  /** A swap signs with the last row it read. */
  lemma SwappedSigns(s: Rotation, reload: nat)
    requires Consistent(s) && reload in s.readings
    ensures
      var answer := s.readings[reload].answer;
      && answer != [] && Next(s, Swap(reload)).ring.kid == answer[|answer| - 1].kid
      && Next(s, Swap(reload)).extent == s.readings[reload].extent
  {
    ReadingMakesARing(s, reload);
    hide Cached, Consistent, PublicKeys;
  }

  /** After the overlap the ring signs with the new row, and the older read has still to swap in. */
  lemma OverlapRuns(s: Rotation, older: seq<SigningKey>, row: SigningKey)
    requires Consistent(s) && s.readings == map[] && Listing(s.rows, older) && Enabled(s, Insert(row))
    requires forall i :: 0 <= i < |s.rows| ==> s.rows[i].created <= s.now
    ensures
      var w := Run(s, Overlap(older, row));
      && AllEnabled(s, Overlap(older, row)) && AllEnabled(w, [Swap(0)]) && Consistent(w)
      && SignsWith(w, |s.rows|) && Run(w, [Swap(0)]).extent == |s.rows| < w.extent
  {
    var states, steps := Overlapped(s, older, row), Overlap(older, row);
    OverlapSteps(s, older, row);
    RunFour(s, steps, states);
    OverlapStatesHold(s, older, row);
    var w := states[3];
    SwappedSigns(states[2], 1);
    OlderWaits(s, older, row);
    hide Consistent, Listing, RingOf, Next, Enabled;
    SwappedSigns(w, 0);
    RunOne(w, Swap(0));
  }

  lemma OlderWaits(s: Rotation, older: seq<SigningKey>, row: SigningKey)
    requires s.readings == map[]
    ensures
      var w := Overlapped(s, older, row)[3];
      0 in w.readings && w.readings[0] == Reading(|s.rows|, older) && w.rows == s.rows + [row]
  {
    hide RingOf;
  }

  lemma RunOne(s: Rotation, step: Step)
    ensures Run(s, [step]) == Next(s, step)
    ensures AllEnabled(s, [step]) <==> Enabled(s, step)
  {
    assert [step][1..] == [] && AllEnabled(Next(s, step), []);
    hide Next, Enabled;
  }

  /**
   * From any table at rest two reloads can orphan a token: signed with the key that went in
   * between their reads, it validates until the older read swaps in, and not after.
   */
  lemma OverlapOrphans(
    s: Rotation, older: seq<SigningKey>, row: SigningKey, config: Issuance, use: Use,
    tenant: Tenant, email: Email, client: ClientId, jti: Id)
    requires Consistent(s) && s.readings == map[] && Listing(s.rows, older) && Enabled(s, Insert(row))
    requires forall i :: 0 <= i < |s.rows| ==> s.rows[i].created <= s.now
    ensures
      var w := Run(s, Overlap(older, row));
      var u := Run(w, [Swap(0)]);
      var token := Sign(w.ring, config, w.now, use, tenant, email, client, jti);
      && AllEnabled(s, Overlap(older, row)) && AllEnabled(w, [Swap(0)])
      && (Validate(w.ring, config, w.now, use, token).Ok? <==> w.now < token.claims.expires)
      && Validate(u.ring, config, u.now, use, token).Err?
  {
    var steps := Overlap(older, row);
    OverlapRuns(s, older, row);
    var w := Run(s, steps);
    RunKeepsConsistent(s, steps);
    assert AllEnabled(w, []) && Run(w, []) == w;
    TokenOutlivesReloadsIff(w, [], |s.rows|, config, use, tenant, email, client, jti);
    TokenOutlivesReloadsIff(w, [Swap(0)], |s.rows|, config, use, tenant, email, client, jti);
    hide Consistent, Run, AllEnabled, Served, AllParse;
  }
}
