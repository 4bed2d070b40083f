/** A device's token record and the three places that change it
    (server/internal/store/tokens.go; validate, maybeRotate and commitRotation in
    server/cmd/copysyncd/main.go). */
module Tokens {

  /** Bearer tokens are opaque to everything but equality; they are numbered. */
  type Token = nat

  /** The keyed hash of a bearer token. HMAC is taken to be injective with a nonempty
      result, so a hash is represented by the token it hashes; Empty is the empty string. */
  datatype Hash = Empty | Mac(token: Token)

  /** `previous` stays valid until the new token is first used; Empty means no rotation is pending. */
  datatype TokenRecord = TokenRecord(current: Hash, previous: Hash, issuedAt: int, revoked: bool)

  predicate Accepts(rec: TokenRecord, h: Hash) {
    h != Empty && (rec.current == h || rec.previous == h)
  }

  predicate Proper(rec: TokenRecord) {
    rec.current != Empty && rec.current != rec.previous
  }

  function Rotated(rec: TokenRecord, h: Hash, now: int): TokenRecord {
    if rec.previous != Empty || rec.current == h then rec
    else rec.(previous := rec.current, current := h, issuedAt := now)
  }

  predicate CanReissue(rec: TokenRecord, grace: Hash, h: Hash) {
    rec.previous != Empty && rec.previous == grace && rec.current != h
  }

  function Reissued(rec: TokenRecord, grace: Hash, h: Hash, now: int): TokenRecord {
    if CanReissue(rec, grace, h) then rec.(current := h, issuedAt := now) else rec
  }

  function Retired(rec: TokenRecord): TokenRecord {
    rec.(previous := Empty)
  }

  const DAY := 24 * 3600

  /** What a connection decides to deliver; nothing is recorded yet. */
  datatype Decision = Nothing | Rotate(token: Token) | Remint(token: Token, grace: Hash)

  /** The decision for a device that authenticated with `presented`; `minted` is the
      token that would be generated. */
  function Decide(rec: TokenRecord, presented: Token, now: int, rotateDays: int, minted: Token): Decision {
    var isCurrent := rec.current == Mac(presented);
    if isCurrent && rec.previous != Empty then Nothing
    else if rotateDays <= 0 then Nothing
    else if !isCurrent && rec.previous == Mac(presented) then Remint(minted, rec.previous)
    else if rec.previous != Empty || !isCurrent then Nothing
    else if now - rec.issuedAt < rotateDays * DAY then Nothing
    else Rotate(minted)
  }

  /** Deciding retires the old token once the new one is presented. */
  function AfterDecide(rec: TokenRecord, presented: Token): TokenRecord {
    if rec.current == Mac(presented) && rec.previous != Empty then Retired(rec) else rec
  }

  /** Record a delivered token: re-issue from the grace state, else rotate. */
  function Commit(rec: TokenRecord, dec: Decision, now: int): TokenRecord
    requires dec != Nothing
  {
    if dec.Remint? && CanReissue(rec, dec.grace, Mac(dec.token)) then Reissued(rec, dec.grace, Mac(dec.token), now)
    else Rotated(rec, Mac(dec.token), now)
  }

  /** A commit records the delivered token if and only if it was recorded already, no
      rotation is pending, or a re-issue finds the grace token it was decided on. */
  lemma CommitRecordsIff(rec: TokenRecord, dec: Decision, now: int)
    requires dec != Nothing
    ensures Accepts(Commit(rec, dec, now), Mac(dec.token)) <==>
      || Accepts(rec, Mac(dec.token))
      || rec.previous == Empty
      || (dec.Remint? && dec.grace == rec.previous)
  {
  }

  /** In particular, a re-issue whose grace token was retired meanwhile still records
      the delivered token, and keeps the token the device is using. */
  lemma ReissueAfterRetire(rec: TokenRecord, dec: Decision, now: int)
    requires dec.Remint? && rec.previous == dec.grace && Proper(rec) && !Accepts(rec, Mac(dec.token))
    ensures var r := Commit(Retired(rec), dec, now);
      r.current == Mac(dec.token) && r.previous == rec.current && Proper(r)
  {
  }
}
