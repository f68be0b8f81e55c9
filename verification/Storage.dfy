/** Row <-> document conversion, the `id|version` document key, and the repository's id filter. */
module Storage {
  import opened Wrappers
  import opened VersionStore
  import Text

  /** A stored document; `validOut == OPEN_OUT` marks the current row. The payload omits the entity id. */
  datatype Document<+P> = Document(key: string, versionNumber: nat, validIn: int, validOut: int, payload: P)

  /** What the services read back: the entity id restored, the open marker turned into None. */
  datatype Versioned<+P> = Versioned(id: string, versionNumber: nat, row: Row<P>)

  function DocumentKey(id: string, version: nat): string { Text.Keyed(id, '|', version) }

  function EntityOf(documentKey: string): string { Text.BeforeLast(documentKey, '|') }

  function ToDocument<P>(id: string, version: nat, row: Row<P>): Document<P> {
    Document(DocumentKey(id, version), version, row.validIn,
             if row.validOut.Some? then row.validOut.value else OPEN_OUT,
             row.payload)
  }

  function FromDocument<P>(d: Document<P>): Versioned<P>
    requires d.validIn < OPEN_OUT && d.validOut <= OPEN_OUT
  {
    Versioned(EntityOf(d.key), d.versionNumber,
              Row(d.validIn, if d.validOut == OPEN_OUT then None else Some(d.validOut), d.payload))
  }

  /**
   The regular expression `^<escaped id>\|\d+$`. In the server's dialect `$` also matches just
   before one final newline, and `\d` is an ASCII digit.
   */
  predicate MatchesFilter(id: string, documentKey: string) {
    var stem := id + "|";
    var body := if documentKey != [] && documentKey[|documentKey| - 1] == '\n'
                then documentKey[..|documentKey| - 1] else documentKey;
    && stem < body
    && Text.AllDigits(body[|stem|..])
  }

  /** One key per (entity, version), for arbitrary identifiers, bars and digits included. */
  lemma {:induction false} DocumentKeyInjective(id: string, other: string, m: nat, n: nat)
    ensures DocumentKey(id, m) == DocumentKey(other, n) <==> id == other && m == n
  {
    Text.KeyedInjective(id, other, '|', m, n);
  }

  lemma {:induction false} EntityRecovered(id: string, version: nat)
    ensures EntityOf(DocumentKey(id, version)) == id
  {
    Text.KeyedSplits(id, '|', version);
  }

  /** The filter selects all rows of its entity and no row of any other. */
  lemma {:induction false} FilterSelectsExactly(id: string, other: string, version: nat)
    ensures MatchesFilter(id, DocumentKey(other, version)) <==> id == other
  {
    var key := DocumentKey(other, version);
    var digits := Text.Decimal(version);
    assert key[|key| - 1] == digits[|digits| - 1];
    assert Text.IsDigit(key[|key| - 1]);
    if MatchesFilter(id, key) {
      var tail := key[|id| + 1..];
      assert key == id + ['|'] + tail;
      Text.BeforeLastSkipsTail(id, '|', tail);
      EntityRecovered(other, version);
    }
    if id == other {
      assert key[|id| + 1..] == digits;
      assert id + "|" < key;
    }
  }

  lemma {:induction false} RowRoundTrip<P>(id: string, version: nat, row: Row<P>)
    ensures FromDocument(ToDocument(id, version, row)) == Versioned(id, version, row)
    ensures ToDocument(id, version, row).key == id + "|" + Text.Decimal(version)
    ensures ToDocument(id, version, row).validOut == 253402300799000000 <==> row.validOut.None?
  {
    EntityRecovered(id, version);
  }

  datatype StoreError = NotFound | DuplicateKey | ConcurrentModification

  /** One MongoDB collection behind InstructionRepository or PaymentRepository. */
  class VersionCollection<P> {
    var documents: map<string, Document<P>>
    /** The rows the documents stand for. */
    ghost var rows: Rows<P>

    ghost predicate Valid()
      reads this
    {
      WellFormed(rows) && Agrees()
    }

    /** Documents and rows are in one-to-one correspondence. */
    ghost predicate Agrees()
      reads this
    {
      && (forall k: Key {:trigger Stores(k)} :: k in rows ==> Stores(k))
      && (forall key: string {:trigger Accounted(key)} :: key in documents ==> Accounted(key))
    }

    ghost predicate Stores(k: Key)
      requires k in rows
      reads this
    {
      var key := DocumentKey(k.id, k.version);
      key in documents && documents[key] == ToDocument(k.id, k.version, rows[k])
    }

    ghost predicate Accounted(key: string)
      reads this
    {
      exists k: Key :: k in rows && key == DocumentKey(k.id, k.version)
    }

    constructor ()
      ensures Valid() && rows == map[]
    {
      documents, rows := map[], map[];
    }

    /** find_one with the id filter and the open marker. */
    method FindOpen(id: string) returns (found: Option<Document<P>>)
      requires Valid()
      ensures match found
        case None => forall v: nat :: !IsOpen(rows, id, v)
        case Some(d) => IsOpen(rows, id, d.versionNumber)
                        && d == ToDocument(id, d.versionNumber, rows[Key(id, d.versionNumber)])
    {
      if exists key :: key in documents && MatchesFilter(id, key) && documents[key].validOut == OPEN_OUT {
        var key :| key in documents && MatchesFilter(id, key) && documents[key].validOut == OPEN_OUT;
        found := Some(documents[key]);
        assert Accounted(key);
        ghost var k: Key :| k in rows && key == DocumentKey(k.id, k.version);
        assert Stores(k);
        FilterSelectsExactly(id, k.id, k.version);
      } else {
        found := None;
        forall v: nat
          ensures !IsOpen(rows, id, v)
        {
          FilterSelectsExactly(id, id, v);
          if Key(id, v) in rows { assert Stores(Key(id, v)); }
        }
      }
    }

    ghost predicate IsOpenDocument(id: string, d: Document<P>)
      reads this
    {
      IsOpen(rows, id, d.versionNumber) && d == ToDocument(id, d.versionNumber, rows[Key(id, d.versionNumber)])
    }

    /** find with the open marker only: the open document of every entity. */
    method FindAllOpen() returns (found: map<string, Document<P>>)
      requires Valid()
      ensures forall id {:trigger id in found} :: id in found ==> IsOpenDocument(id, found[id])
      ensures forall id, v: nat :: IsOpen(rows, id, v) ==> id in found
    {
      found := map[];
      var left := documents.Keys;
      while left != {}
        invariant left <= documents.Keys
        invariant forall id {:trigger id in found} :: id in found ==> IsOpenDocument(id, found[id])
        invariant forall key :: key in documents.Keys - left && documents[key].validOut == OPEN_OUT ==> EntityOf(key) in found
        decreases left
      {
        var key :| key in left;
        left := left - {key};
        if documents[key].validOut == OPEN_OUT {
          assert Accounted(key);
          ghost var k: Key :| k in rows && key == DocumentKey(k.id, k.version);
          assert Stores(k);
          EntityRecovered(k.id, k.version);
          found := found[EntityOf(key) := documents[key]];
        }
      }
      forall id, v: nat | IsOpen(rows, id, v)
        ensures id in found
      {
        assert Stores(Key(id, v));
        EntityRecovered(id, v);
      }
    }

    /** get_current: the open row of the entity, if it has one. */
    method GetCurrent(id: string) returns (r: Result<Versioned<P>, StoreError>)
      requires Valid()
      ensures match r
        case Failure(e) => e == NotFound && forall v: nat :: !IsOpen(rows, id, v)
        case Success(c) => c.id == id && IsOpen(rows, id, c.versionNumber)
                           && c.row == rows[Key(id, c.versionNumber)]
    {
      var found := FindOpen(id);
      if found.None? { return Failure(NotFound); }
      RowRoundTrip(id, found.value.versionNumber, rows[Key(id, found.value.versionNumber)]);
      r := Success(FromDocument(found.value));
    }

    /** insert_initial: version 1; the unique `_id` rejects a second one. */
    method InsertInitial(id: string, payload: P, now: Clock) returns (r: Result<Versioned<P>, StoreError>)
      requires Valid()
      modifies this
      ensures Valid()
      ensures r == if Key(id, 1) in old(rows) then Failure(DuplicateKey)
                   else Success(Versioned(id, 1, Row(now, None, payload)))
      ensures rows == if Key(id, 1) in old(rows) then old(rows)
                      else old(rows)[Key(id, 1) := Row(now, None, payload)]
    {
      var document := ToDocument(id, 1, Row(now, None, payload));
      assert Key(id, 1) in rows ==> Stores(Key(id, 1));
      if document.key in documents {
        assert Accounted(document.key);
        ghost var k: Key :| k in rows && document.key == DocumentKey(k.id, k.version);
        DocumentKeyInjective(k.id, id, k.version, 1);
        return Failure(DuplicateKey);
      }
      InsertKeepsChains(rows, id, payload, now);
      InsertOne(document, Key(id, 1));
      RowRoundTrip(id, 1, Row(now, None, payload));
      r := Success(FromDocument(document));
    }

    /** insert_one of a key not present yet. */
    method InsertOne(document: Document<P>, ghost k: Key)
      requires Agrees()
      requires document.key !in documents && k !in rows
      requires document.validIn < OPEN_OUT && document.validOut == OPEN_OUT
      requires document.key == DocumentKey(k.id, k.version) && document.versionNumber == k.version
      modifies this
      ensures rows == old(rows)[k := Row(document.validIn, None, document.payload)]
      ensures Agrees()
    {
      documents := documents[document.key := document];
      rows := rows[k := Row(document.validIn, None, document.payload)];
      forall k': Key | k' in rows
        ensures Stores(k')
      {
        DocumentKeyInjective(k'.id, k.id, k'.version, k.version);
        if k' != k { assert old(Stores(k')); }
      }
      forall key: string | key in documents
        ensures Accounted(key)
      {
        if key == document.key {
          assert k in rows;
        } else {
          assert old(Accounted(key));
          var k': Key :| k' in old(rows) && key == DocumentKey(k'.id, k'.version);
          assert k' in rows;
        }
      }
    }

    /** update_one setting `out` of one stored row. */
    method CloseOne(key: string, now: Clock, ghost k: Key)
      requires Agrees()
      requires k in rows && key == DocumentKey(k.id, k.version) && key in documents
      modifies this
      ensures rows == old(rows)[k := old(rows)[k].(validOut := Some(now))]
      ensures documents.Keys == old(documents.Keys)
      ensures Agrees()
    {
      assert Stores(k);
      documents := documents[key := documents[key].(validOut := now)];
      rows := rows[k := rows[k].(validOut := Some(now))];
      forall k': Key | k' in rows
        ensures Stores(k')
      {
        DocumentKeyInjective(k'.id, k.id, k'.version, k.version);
        if k' != k { assert old(Stores(k')); }
      }
      forall key': string | key' in documents
        ensures Accounted(key')
      {
        assert old(Accounted(key'));
        var k': Key :| k' in old(rows) && key' == DocumentKey(k'.id, k'.version);
        assert k' in rows;
      }
    }

    lemma KeyAbsent(k: Key)
      requires Agrees() && k !in rows
      ensures DocumentKey(k.id, k.version) !in documents
    {
      var key := DocumentKey(k.id, k.version);
      if key in documents {
        assert Accounted(key);
        var k': Key :| k' in rows && key == DocumentKey(k'.id, k'.version);
        DocumentKeyInjective(k'.id, k.id, k'.version, k.version);
      }
    }

    /** append_version with no other writer in between: closes the open row, inserts the next. */
    method AppendVersion(id: string, payload: P, now: Clock) returns (r: Result<Versioned<P>, StoreError>)
      requires Valid()
      modifies this
      ensures Valid()
      ensures match r
        case Failure(e) => e == NotFound && rows == old(rows) && forall v: nat :: !IsOpen(rows, id, v)
        case Success(saved) =>
          && saved.versionNumber >= 1 && IsOpen(old(rows), id, saved.versionNumber - 1)
          && saved == Versioned(id, saved.versionNumber, Row(now, None, payload))
          && rows == AppendRow(old(rows), id, saved.versionNumber - 1, payload, now)
    {
      var current := FindOpen(id);
      if current.None? { return Failure(NotFound); }
      var v := current.value.versionNumber;
      AppendKeepsChains(rows, id, v, payload, now);
      var document := ToDocument(id, v + 1, Row(now, None, payload));
      KeyAbsent(Key(id, v + 1));
      assert Stores(Key(id, v));
      CloseOne(current.value.key, now, Key(id, v));
      InsertOne(document, Key(id, v + 1));
      RowRoundTrip(id, v + 1, Row(now, None, payload));
      r := Success(FromDocument(document));
    }
  }
}
