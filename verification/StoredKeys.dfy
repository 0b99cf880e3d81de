/** A key of the lifecycle and its record in the store: what it means that a branch holds a key,
    that the store answers it, and that the keys in play are told apart. */
module StoredKeys {
  import opened Common
  import opened FeedbackLoop
  import Objects
  import Dreamcatcher

  /** Keys are filed under the same path only if they have the same name in the store. */
  ghost predicate KeysApart(d: Objects.Digests, keys: set<string>) {
    forall k1, k2 :: k1 in keys && k2 in keys && d.PathOf(d.nfc(k1)) == d.PathOf(d.nfc(k2)) ==> d.nfc(k1) == d.nfc(k2)
  }

  /** Different keys have different names in the store. */
  ghost predicate NamesApart(d: Objects.Digests, keys: set<string>) {
    forall k1, k2 :: k1 in keys && k2 in keys && d.nfc(k1) == d.nfc(k2) ==> k1 == k2
  }

  /** The picture holds the value under the key. */
  ghost predicate Held(d: Objects.Digests, c: Dreamcatcher.Picture, b: string, k: string, value: string) {
    && !d.blank(k) && b in c
    && var p := d.PathOf(d.nfc(k)); p in c[b] && c[b][p].key == d.nfc(k) && c[b][p].value == value
  }

  /** The branch answers the key with the value. */
  ghost predicate ReadsBack(d: Objects.Digests, db: Dreamcatcher.Db, b: string, k: string, value: string) {
    match Dreamcatcher.Get(d, db, b, k)
    case Ok(Some(o)) => o.Memory? && o.record.key == d.nfc(k) && o.record.value == value
    case _ => false
  }

  lemma ReadsBackIfHeld(d: Objects.Digests, db: Dreamcatcher.Db, c: Dreamcatcher.Picture, b: string, k: string, value: string)
    requires d.WellFormed() && Dreamcatcher.Depicts(d, db, c)
    ensures ReadsBack(d, db, b, k, value) <==> Held(d, c, b, k, value)
  {
    Dreamcatcher.GetRefines(d, db, c, b, k);
  }

  /** The picture holds the key with its payload. */
  ghost predicate Stored(d: Objects.Digests, st: Loop, c: Dreamcatcher.Picture, b: string, k: string) {
    k in st.payload && Held(d, c, b, k, st.payload[k].value)
  }

  /** The branch answers the key with its payload. */
  ghost predicate Durable(d: Objects.Digests, st: Loop, db: Dreamcatcher.Db, b: string, k: string) {
    k in st.payload && ReadsBack(d, db, b, k, st.payload[k].value)
  }

  lemma DurableIfStored(d: Objects.Digests, st: Loop, db: Dreamcatcher.Db, c: Dreamcatcher.Picture, b: string, k: string)
    requires d.WellFormed() && Dreamcatcher.Depicts(d, db, c)
    ensures Durable(d, st, db, b, k) <==> Stored(d, st, c, b, k)
  {
    if k in st.payload { ReadsBackIfHeld(d, db, c, b, k, st.payload[k].value); }
  }
}
