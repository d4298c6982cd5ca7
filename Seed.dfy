/**
 * The database seed (prisma/seed.ts): the records read from the JSON file
 * lose their three timestamp fields, and each record with an id is then
 * upserted into the property table, in file order. Reading and parsing the
 * file is left out; the records arrive as a sequence. The timestamps the
 * database gives a newly created row are a parameter, `created`.
 */
module Seed {
  import opened Common
  import opened Store

  /** A record as the JSON file holds it. `id` is missing when absent; "" is falsy too. */
  datatype RawProperty = RawProperty(
    id: Option<string>, userId: string, sellerName: string, status: string, data: PropertyData,
    createdAt: Option<string>, updatedAt: Option<string>, expiresAt: Option<string>)

  /** A record after cleaning: every field but the timestamps. */
  datatype CleanProperty = CleanProperty(
    id: Option<string>, userId: string, sellerName: string, status: string, data: PropertyData)

  /** `const { createdAt, updatedAt, expiresAt, ...cleanedProperty } = property` */
  function CleanRecord(r: RawProperty): CleanProperty
  {
    CleanProperty(r.id, r.userId, r.sellerName, r.status, r.data)
  }

  /** The cleaning `map` over all records. */
  function Clean(raws: seq<RawProperty>): (r: seq<CleanProperty>)
    ensures |r| == |raws|
    ensures forall i :: 0 <= i < |raws| ==> r[i] == CleanRecord(raws[i])
  {
    seq(|raws|, i requires 0 <= i < |raws| => CleanRecord(raws[i]))
  }

  /** Records that differ only in their timestamps clean to the same record. */
  lemma CleanIgnoresTimestamps(r: RawProperty, createdAt: Option<string>, updatedAt: Option<string>, expiresAt: Option<string>)
    ensures CleanRecord(r.(createdAt := createdAt, updatedAt := updatedAt, expiresAt := expiresAt)) == CleanRecord(r)
  {
  }

  /** The id the loop uses, when it is truthy. */
  function SeedId(c: CleanProperty): Option<string>
  {
    if c.id.Some? && c.id.value != "" then c.id else None
  }

  /** The row the upsert writes for a record. */
  function Written(c: CleanProperty, id: string, stamps: Stamps): Property
  {
    Property(id, c.userId, c.sellerName, c.status, c.data, stamps)
  }

  /**
   * One iteration: a record without an id is skipped; otherwise an existing
   * row is updated with the record (its timestamps, which the record no
   * longer carries, stay) and a new row is created with new timestamps.
   */
  function Upsert(table: map<string, Property>, c: CleanProperty, created: Stamps): map<string, Property>
  {
    if SeedId(c).None? then table
    else
      var k := SeedId(c).value;
      table[k := Written(c, k, if k in table then table[k].stamps else created)]
  }

  /** The upserts of the loop, in order. */
  function SeedAll(table: map<string, Property>, recs: seq<CleanProperty>, created: Stamps): map<string, Property>
    decreases |recs|
  {
    if recs == [] then table else SeedAll(Upsert(table, recs[0], created), recs[1..], created)
  }

  /**
   * The database refuses the upsert of record `failsAt` (a `userId` naming
   * no user, a value a column refuses). A record without an id is skipped
   * before any upsert, so nothing is refused there.
   */
  predicate UpsertRefused(recs: seq<CleanProperty>, failsAt: Option<nat>)
  {
    failsAt.Some? && failsAt.value < |recs| && SeedId(recs[failsAt.value]).Some?
  }

  /** The records whose upserts take effect: all of them, or those before the refused one. */
  function Attempted(recs: seq<CleanProperty>, failsAt: Option<nat>): (r: seq<CleanProperty>)
    ensures |r| <= |recs| && r == recs[..|r|]
    ensures |r| < |recs| <==> UpsertRefused(recs, failsAt)
    ensures UpsertRefused(recs, failsAt) ==> |r| == failsAt.value
  {
    if UpsertRefused(recs, failsAt) then recs[..failsAt.value] else recs
  }

  /**
   * `main`, after the file has been read: clean every record, then upsert
   * them one by one. A refused upsert throws out of the loop, and `main`'s
   * `catch` ends the process with status 1: `completed` is false, the rows
   * written before stay and no later record is written.
   */
  method SeedTable(db: Database, raws: seq<RawProperty>, created: Stamps, failsAt: Option<nat>)
    returns (completed: bool)
    modifies db
    ensures completed <==> !UpsertRefused(Clean(raws), failsAt)
    ensures db.properties == SeedAll(old(db.properties), Attempted(Clean(raws), failsAt), created)
    ensures db.users == old(db.users)
  {
    var properties := Clean(raws);
    ghost var start := db.properties;
    var i := 0;
    while i < |properties|
      invariant 0 <= i <= |properties|
      invariant db.properties == SeedAll(start, properties[..i], created)
      invariant !UpsertRefused(properties[..i], failsAt)
      invariant db.users == old(db.users)
    {
      var property := properties[i];
      SeedAppend(start, properties[..i], [property], created);
      assert properties[..i + 1] == properties[..i] + [property];
      assert SeedAll(Upsert(db.properties, property, created), [], created) == Upsert(db.properties, property, created);
      if property.id.None? || property.id.value == "" {
        i := i + 1;
        continue;
      }
      if failsAt == Some(i) {
        return false;
      }
      var k := property.id.value;
      var stamps := if k in db.properties then db.properties[k].stamps else created;
      db.properties := db.properties[k := Property(k, property.userId, property.sellerName, property.status, property.data, stamps)];
      i := i + 1;
    }
    assert properties[..i] == properties;
    completed := true;
  }

  /**
   * After a refused upsert, a row whose id no earlier record carries is as
   * it was before the seed, and no such row appears: the refused record and
   * every later one are written only through an earlier record of theirs.
   */
  lemma RefusedUpsertStopsSeed(table: map<string, Property>, recs: seq<CleanProperty>, created: Stamps,
                               failsAt: Option<nat>, k: string)
    requires UpsertRefused(recs, failsAt)
    requires !Mentions(recs[..failsAt.value], k)
    ensures var after := SeedAll(table, Attempted(recs, failsAt), created);
      && (k in after <==> k in table)
      && (k in table ==> after[k] == table[k])
  {
    SeedUntouched(table, recs[..failsAt.value], created, k);
  }

  /** Some record of `recs` carries the id `k`. */
  predicate Mentions(recs: seq<CleanProperty>, k: string)
  {
    exists i :: 0 <= i < |recs| && SeedId(recs[i]) == Some(k)
  }

  lemma MentionsTail(recs: seq<CleanProperty>, k: string)
    requires recs != []
    ensures Mentions(recs, k) <==> SeedId(recs[0]) == Some(k) || Mentions(recs[1..], k)
  {
    if Mentions(recs, k) && SeedId(recs[0]) != Some(k) {
      var i :| 0 <= i < |recs| && SeedId(recs[i]) == Some(k);
      assert recs[1..][i - 1] == recs[i];
    }
    if Mentions(recs[1..], k) {
      var i :| 0 <= i < |recs[1..]| && SeedId(recs[1..][i]) == Some(k);
      assert recs[i + 1] == recs[1..][i];
    }
  }

  /** Seeding two lists one after the other is seeding their concatenation. */
  lemma {:induction false} SeedAppend(table: map<string, Property>, pre: seq<CleanProperty>, post: seq<CleanProperty>, created: Stamps)
    ensures SeedAll(table, pre + post, created) == SeedAll(SeedAll(table, pre, created), post, created)
    decreases |pre|
  {
    if pre == [] {
      assert pre + post == post;
    } else {
      assert (pre + post)[0] == pre[0];
      assert (pre + post)[1..] == pre[1..] + post;
      SeedAppend(Upsert(table, pre[0], created), pre[1..], post, created);
    }
  }

  /** A record without a truthy id is skipped wherever it stands. */
  lemma RecordWithoutIdSkipped(table: map<string, Property>, pre: seq<CleanProperty>, c: CleanProperty,
                               post: seq<CleanProperty>, created: Stamps)
    requires SeedId(c).None?
    ensures SeedAll(table, pre + [c] + post, created) == SeedAll(table, pre + post, created)
  {
    SeedAppend(table, pre + [c], post, created);
    SeedAppend(table, pre, [c], created);
    SeedAppend(table, pre, post, created);
  }

  /** Rows whose id no record carries are left exactly as they were, and no such row appears. */
  lemma {:induction false} SeedUntouched(table: map<string, Property>, recs: seq<CleanProperty>, created: Stamps, k: string)
    requires !Mentions(recs, k)
    ensures k in SeedAll(table, recs, created) <==> k in table
    ensures k in table ==> SeedAll(table, recs, created)[k] == table[k]
    decreases |recs|
  {
    if recs != [] {
      MentionsTail(recs, k);
      SeedUntouched(Upsert(table, recs[0], created), recs[1..], created, k);
    }
  }

  /** The table afterwards has the old ids and the ids of the records, and no others. */
  lemma {:induction false} SeedKeys(table: map<string, Property>, recs: seq<CleanProperty>, created: Stamps, k: string)
    ensures k in SeedAll(table, recs, created) <==> k in table || Mentions(recs, k)
    decreases |recs|
  {
    if recs != [] {
      MentionsTail(recs, k);
      SeedKeys(Upsert(table, recs[0], created), recs[1..], created, k);
    }
  }

  /** A row keeps the timestamps it had before seeding; a row the seed created has the new ones. */
  lemma {:induction false} SeedStamps(table: map<string, Property>, recs: seq<CleanProperty>, created: Stamps, k: string)
    requires k in SeedAll(table, recs, created)
    ensures SeedAll(table, recs, created)[k].stamps == if k in table then table[k].stamps else created
    decreases |recs|
  {
    if recs != [] {
      var next := Upsert(table, recs[0], created);
      SeedStamps(next, recs[1..], created, k);
      assert k in next ==> next[k].stamps == if k in table then table[k].stamps else created;
    }
  }

  /**
   * A seeded id's row is its last record in the file, with the timestamps
   * the row already had, or new ones when the seed created it.
   */
  lemma SeedLastWins(table: map<string, Property>, recs: seq<CleanProperty>, created: Stamps, k: string, j: int)
    requires 0 <= j < |recs| && SeedId(recs[j]) == Some(k)
    requires forall l :: j < l < |recs| ==> SeedId(recs[l]) != Some(k)
    ensures k in SeedAll(table, recs, created)
    ensures SeedAll(table, recs, created)[k] == Written(recs[j], k, if k in table then table[k].stamps else created)
  {
    var before := SeedAll(table, recs[..j], created);
    var at := Upsert(before, recs[j], created);
    assert recs == recs[..j] + [recs[j]] + recs[j + 1..];
    SeedAppend(table, recs[..j] + [recs[j]], recs[j + 1..], created);
    SeedAppend(table, recs[..j], [recs[j]], created);
    assert SeedAll(before, [recs[j]], created) == at;
    var post := recs[j + 1..];
    assert !Mentions(post, k) by {
      forall i | 0 <= i < |post| ensures SeedId(post[i]) != Some(k) {
        assert post[i] == recs[j + 1 + i];
      }
    }
    SeedUntouched(at, post, created, k);
    SeedKeys(table, recs[..j], created, k);
    if k in before {
      SeedStamps(table, recs[..j], created, k);
    }
  }

  /** Seeding a second time with the same records changes nothing. */
  lemma SeedIdempotent(table: map<string, Property>, recs: seq<CleanProperty>, created: Stamps)
    ensures SeedAll(SeedAll(table, recs, created), recs, created) == SeedAll(table, recs, created)
  {
    var once := SeedAll(table, recs, created);
    var twice := SeedAll(once, recs, created);
    forall k | true
      ensures k in twice <==> k in once
      ensures k in once ==> twice[k] == once[k]
    {
      SeedKeys(table, recs, created, k);
      SeedKeys(once, recs, created, k);
      if Mentions(recs, k) {
        var j := LastMention(recs, k);
        SeedLastWins(table, recs, created, k, j);
        SeedLastWins(once, recs, created, k, j);
        SeedStamps(table, recs, created, k);
      } else {
        SeedUntouched(once, recs, created, k);
      }
    }
  }

  /** The index of the last record that carries `k`. */
  function LastMention(recs: seq<CleanProperty>, k: string): (j: int)
    requires Mentions(recs, k)
    ensures 0 <= j < |recs| && SeedId(recs[j]) == Some(k)
    ensures forall l :: j < l < |recs| ==> SeedId(recs[l]) != Some(k)
    decreases |recs|
  {
    var last := recs[|recs| - 1];
    if SeedId(last) == Some(k) then |recs| - 1
    else
      assert Mentions(recs[..|recs| - 1], k) by {
        var i :| 0 <= i < |recs| && SeedId(recs[i]) == Some(k);
        assert recs[..|recs| - 1][i] == recs[i];
      }
      var j := LastMention(recs[..|recs| - 1], k);
      assert recs[..|recs| - 1][j] == recs[j];
      j
  }
}
