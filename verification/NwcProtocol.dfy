/** Freshness of NIP-47 request events (section "Events" of NIP-47). */
module NwcProtocol {
  import opened Prelude

  const MAX_AGE: nat := 300
  const FUTURE_SKEW: nat := 30
  const REQUEST_KIND: nat := 23194
  const MAX_CONTENT: nat := 32_768

  /** A request event. `verified` is the outcome of checking its id and signature. */
  datatype Event = Event(
    id: string, kind: nat, author: string, createdAt: nat, content: string,
    tags: seq<seq<string>>, verified: bool)

  /** The value of the first tag called `name` that carries one. */
  function Tag(tags: seq<seq<string>>, name: string): Option<string> {
    if tags == [] then None
    else if |tags[0]| >= 2 && tags[0][0] == name then Some(tags[0][1])
    else Tag(tags[1..], name)
  }

  function CountTags(tags: seq<seq<string>>, name: string): nat {
    if tags == [] then 0
    else (if |tags[0]| >= 1 && tags[0][0] == name then 1 else 0) + CountTags(tags[1..], name)
  }

  function Digits(s: string, value: nat): Option<nat> {
    if s == [] then Some(value)
    else if '0' <= s[0] <= '9' then Digits(s[1..], 10 * value + (s[0] as int - '0' as int))
    else None
  }

  /** `str::parse::<u64>`: an optional plus sign, digits, no overflow. */
  function ParseU64(s: string): Option<nat> {
    var digits := if s != [] && s[0] == '+' then s[1..] else s;
    if digits == [] then None
    else
      match Digits(digits, 0)
      case Some(n) => if n <= U64_MAX then Some(n) else None
      case None => None
  }

  /** The part of validation that depends on the clock. */
  predicate Fresh(createdAt: nat, at: nat) {
    createdAt <= at + FUTURE_SKEW && SatAdd(createdAt, MAX_AGE) > at
  }

  predicate Valid(event: Event, client: string, wallet: string, paired: nat, at: nat) {
    && event.kind == REQUEST_KIND
    && event.author == client
    && event.createdAt >= paired
    && Fresh(event.createdAt, at)
    && |event.content| <= MAX_CONTENT
    && CountTags(event.tags, "p") == 1
    && Tag(event.tags, "p") == Some(wallet)
    && (var expiration := Tag(event.tags, "expiration");
        expiration.Some? ==>
          ParseU64(expiration.value).Some? && ParseU64(expiration.value).value > at)
    && event.verified
  }

  function Deadline(event: Event): nat {
    var age := SatAdd(event.createdAt, MAX_AGE);
    match Tag(event.tags, "expiration")
    case None => age
    case Some(text) =>
      match ParseU64(text)
      case None => age
      case Some(expiry) => Min(age, expiry)
  }

  /** An event accepted at `at` still has time left, never more than its maximum
      age plus the tolerated skew, and is still valid (if nothing else changes) at
      exactly the later moments before its deadline. */
  lemma ValidUntilDeadline(event: Event, client: string, wallet: string, paired: nat, at: nat, later: nat)
    requires Valid(event, client, wallet, paired, at)
    requires at <= later
    ensures at < Deadline(event) <= at + FUTURE_SKEW + MAX_AGE
    ensures Valid(event, client, wallet, paired, later) <==> later < Deadline(event)
  {
    var expiration := Tag(event.tags, "expiration");
    if expiration.Some? {
      assert ParseU64(expiration.value).Some?;
    }
  }

  /** What makes an event valid, in its own fields: a verified request of this client to
      this wallet, made since they paired, at most 30 s ahead and less than 300 s old. */
  lemma ValidExactly(event: Event, client: string, wallet: string, paired: nat, at: nat)
    requires event.createdAt <= U64_MAX - 300
    ensures Valid(event, client, wallet, paired, at) <==>
      && event.verified && event.kind == 23194 && event.author == client && |event.content| <= 32_768
      && event.createdAt >= paired && event.createdAt <= at + 30 && at < event.createdAt + 300
      && CountTags(event.tags, "p") == 1 && Tag(event.tags, "p") == Some(wallet)
      && (Tag(event.tags, "expiration").Some? ==>
            && ParseU64(Tag(event.tags, "expiration").value).Some?
            && at < ParseU64(Tag(event.tags, "expiration").value).value)
  {
  }
}
