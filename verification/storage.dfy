/** The persisted consent slot: a key-value store in which the controller
    keeps one serialized record under a fixed key. Serialization is
    abstracted: an entry is either a record, text that reads as "no record",
    or text that does not parse. */
module Storage {
  import opened Options
  import opened Consent

  /** The key the record is stored under. */
  const ConsentKey: string := "fs-cc-consent"

  /** What a stored value parses to. `Blank` is text the reader treats as no
      record (the empty string, or the JSON literal `null`); `Malformed` is
      text on which the JSON parser throws. */
  datatype Entry = Saved(record: Record) | Blank | Malformed

  type Store = map<string, Entry>

  /** The only error the core raises: the stored text does not parse. */
  datatype ReadError = MalformedConsent

  /** True when reading the consent slot does not throw. */
  predicate Readable(store: Store)
  {
    ConsentKey !in store || !store[ConsentKey].Malformed?
  }

  /** Reads the slot: no entry or a blank one is "no record", a saved record
      is returned, and text that does not parse aborts the read. */
  function GetConsent(store: Store): (r: Result<Option<Record>, ReadError>)
    ensures r.Failure? <==> !Readable(store)
    ensures r == Success(None) <==> ConsentKey !in store || store[ConsentKey].Blank?
    ensures forall rec :: r == Success(Some(rec)) <==> ConsentKey in store && store[ConsentKey] == Saved(rec)
  {
    if ConsentKey !in store then Success(None)
    else match store[ConsentKey]
      case Saved(rec) => Success(Some(rec))
      case Blank => Success(None)
      case Malformed => Failure(MalformedConsent)
  }

  /** Stores the record under the consent key, replacing whatever was there
      as a whole; no other key is touched. */
  function SetConsent(store: Store, rec: Record): (s: Store)
    ensures s.Keys == store.Keys + {ConsentKey}
    ensures forall k :: k in store && k != ConsentKey ==> s[k] == store[k]
    ensures Readable(s)
  {
    store[ConsentKey := Saved(rec)]
  }

  /** Writing a record and reading it back gives the same record. */
  lemma SetThenGet(store: Store, rec: Record)
    ensures GetConsent(SetConsent(store, rec)) == Success(Some(rec))
  {
  }

  /** An empty store holds no record. */
  lemma GetOnEmpty()
    ensures GetConsent(map[]) == Success(None)
  {
  }

  /** A second write replaces the first entirely: records are never merged. */
  lemma SetReplaces(store: Store, first: Record, second: Record)
    ensures SetConsent(SetConsent(store, first), second) == SetConsent(store, second)
  {
  }
}
