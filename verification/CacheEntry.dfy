/** One stored response, and the arithmetic of its lifetime. */
module CacheEntry {
  /** One header field with the lines it was sent on. */
  datatype Field = Field(name: string, values: seq<string>)

  /** A stored response, or -- with status 0 and a vary list -- the index naming a resource's variants. */
  datatype Entry = Entry(
    service: string,
    path: string,
    varyOn: seq<string>,
    variantKey: string,
    variants: seq<string>,
    status: nat,
    header: seq<Field>,
    body: string,
    storedAt: int,
    initialAge: nat,
    freshFor: nat,
    staleWhileRevalidate: nat
  )

  const ENTRY_OVERHEAD: nat := 256

  predicate IsResponse(e: Entry) {
    e.status >= 100
  }

  predicate IsIndex(e: Entry) {
    e.status == 0 && e.varyOn != []
  }

  /** Age never falls below what the response came with, even if the clock is set back. */
  function Age(e: Entry, now: int): int {
    e.initialAge + (if now < e.storedAt then 0 else now - e.storedAt)
  }

  predicate Fresh(e: Entry, now: int) {
    Age(e, now) < e.freshFor
  }

  predicate Servable(e: Entry, now: int) {
    Age(e, now) < e.freshFor + e.staleWhileRevalidate
  }

  function Ttl(e: Entry): nat {
    var ttl := e.freshFor + e.staleWhileRevalidate - e.initialAge;
    if ttl < 0 then 0 else ttl
  }

  function TotalLength(parts: seq<string>): nat {
    if parts == [] then 0 else |parts[0]| + TotalLength(parts[1..])
  }

  function HeaderLength(header: seq<Field>): nat {
    if header == [] then 0 else |header[0].name| + TotalLength(header[0].values) + HeaderLength(header[1..])
  }

  function Size(e: Entry): (n: nat)
    ensures n >= ENTRY_OVERHEAD + |e.body|
  {
    |e.body| + |e.service| + |e.path| + |e.variantKey| + ENTRY_OVERHEAD
    + TotalLength(e.varyOn) + TotalLength(e.variants) + HeaderLength(e.header)
  }

  predicate Carries(f: Field, name: string) {
    f.name == name && f.values != []
  }

  /** The first value sent under a name, or nothing. */
  function FieldValue(header: seq<Field>, name: string): (value: string)
    ensures (forall i :: 0 <= i < |header| ==> !Carries(header[i], name)) ==> value == ""
    ensures forall i :: 0 <= i < |header| && Carries(header[i], name) && (forall j :: 0 <= j < i ==> !Carries(header[j], name)) ==>
              value == header[i].values[0]
  {
    if header == [] then ""
    else if Carries(header[0], name) then header[0].values[0]
    else FieldValue(header[1..], name)
  }

  /** What a 304 makes of an entry: same bytes, same key, a restarted life. */
  function Refreshed(e: Entry, now: int, freshFor: nat, staleWhileRevalidate: nat): Entry {
    e.(storedAt := now, initialAge := 0, freshFor := freshFor, staleWhileRevalidate := staleWhileRevalidate)
  }

  /** Within a lifetime, what is servable stays servable backwards in time, and is usable exactly while it has ttl left. */
  lemma ServableUntilTtl(e: Entry, now: int)
    requires e.storedAt <= now
    ensures Servable(e, now) <==> now - e.storedAt < Ttl(e)
  {
  }
}
