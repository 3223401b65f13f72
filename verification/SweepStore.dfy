/**
 The engine's record files: saving, flagging, reconciling, and the load pass that migrates files
 named by address to files named by deposit id.
 */
module SweepStore {
  import opened Options
  import opened SweepModel

  /** A file is named by its deposit id, or, by older code, by address and chain. */
  datatype FileName = ById(id: Id) | Legacy(address: Address, chain: ChainId)

  type Files = map<FileName, Record>

  /** Files named by id hold the record of that id, as every save leaves them. */
  ghost predicate WellNamed(files: Files) {
    forall id :: ById(id) in files ==> files[ById(id)].claim.id == id
  }

  /** The records the engine can look up by deposit id. */
  function Disk(files: Files): map<Id, Record> {
    map f | f in files && f.ById? :: f.id := files[f]
  }

  datatype Pass = Pass(files: Files, records: seq<Record>)

  /** One listed file: kept, renamed, or dropped in favour of the copy named by id. */
  function Visit(pass: Pass, f: FileName): Pass {
    if f !in pass.files then pass else
    var record := pass.files[f];
    var expected := ById(record.claim.id);
    if f == expected then Pass(pass.files, pass.records + [record])
    else if expected in pass.files then Pass(pass.files - {f}, pass.records)
    else Pass((pass.files - {f})[expected := record], pass.records + [record])
  }

  /** A file the pass has dealt with: visited, or created by a rename. */
  predicate Settled(before: Files, done: seq<FileName>, f: FileName) {
    f in done || f !in before
  }

  /** What is left of the files `before` once those in `done` are visited. */
  ghost predicate FilesOk(before: Files, done: seq<FileName>, files: Files) {
    && WellNamed(files)
    && (forall f :: f in before && f !in done ==> f in files && files[f] == before[f])
    && (forall f :: f in files && Settled(before, done, f) ==> f.ById?)
    && (forall f :: f in done ==> f in before && ById(before[f].claim.id) in files)
    && (forall id :: ById(id) in before ==> ById(id) in files && files[ById(id)] == before[ById(id)])
  }

  /** The records returned so far are those of the settled files, one per deposit. */
  ghost predicate RecordsOk(before: Files, done: seq<FileName>, pass: Pass) {
    && (forall f :: f in pass.files && Settled(before, done, f) ==> pass.files[f] in pass.records)
    && (forall k :: 0 <= k < |pass.records| ==> Placed(before, done, pass.files, pass.records[k]))
    && (forall k, l :: 0 <= k < l < |pass.records| ==> pass.records[k].claim.id != pass.records[l].claim.id)
  }

  ghost predicate Placed(before: Files, done: seq<FileName>, files: Files, record: Record) {
    var name := ById(record.claim.id);
    name in files && files[name] == record && Settled(before, done, name)
  }

  lemma VisitKeepsFiles(before: Files, done: seq<FileName>, pass: Pass, f: FileName)
    requires FilesOk(before, done, pass.files) && f in before && f !in done
    ensures FilesOk(before, done + [f], Visit(pass, f).files)
  {
    var after, name := Visit(pass, f).files, ById(before[f].claim.id);
    assert pass.files[f] == before[f];
    assert after == if f == name then pass.files
                    else if name in pass.files then pass.files - {f}
                    else (pass.files - {f})[name := before[f]];
    assert WellNamed(after);
  }

  lemma VisitKeepsRecords(before: Files, done: seq<FileName>, pass: Pass, f: FileName)
    requires FilesOk(before, done, pass.files) && RecordsOk(before, done, pass) && f in before && f !in done
    ensures RecordsOk(before, done + [f], Visit(pass, f))
  {
    var next, id := Visit(pass, f), before[f].claim.id;
    forall k | 0 <= k < |next.records| ensures Placed(before, done + [f], next.files, next.records[k]) {
      if k < |pass.records| {
        assert Placed(before, done, pass.files, pass.records[k]);
      }
    }
    forall k | 0 <= k < |pass.records| && |next.records| > |pass.records| ensures pass.records[k].claim.id != id {
      assert Placed(before, done, pass.files, pass.records[k]);
    }
    forall n | n in next.files && Settled(before, done + [f], n) ensures next.files[n] in next.records {
      if n in pass.files && Settled(before, done, n) {
        assert pass.files[n] in pass.records;
      } else {
        assert next.records[|next.records| - 1] == next.files[n];
      }
    }
  }

  // ----- the whole pass -----

  /** The directory listing names every file once; the order decides nothing but which of two
      address-keyed duplicates is kept. */
  ghost predicate IsListing(files: Files, listing: seq<FileName>) {
    && (forall f :: f in files <==> f in listing)
    && (forall i, j :: 0 <= i < j < |listing| ==> listing[i] != listing[j])
  }

  /** The pass over the first `n` listed files. */
  function Migrate(files: Files, listing: seq<FileName>, n: nat): Pass
    requires n <= |listing|
  {
    if n == 0 then Pass(files, []) else Visit(Migrate(files, listing, n - 1), listing[n - 1])
  }

  function Migrated(files: Files, listing: seq<FileName>): Pass {
    Migrate(files, listing, |listing|)
  }

  lemma {:induction false} MigrateKeepsInvariant(files: Files, listing: seq<FileName>, n: nat)
    requires WellNamed(files) && IsListing(files, listing) && n <= |listing|
    ensures FilesOk(files, listing[..n], Migrate(files, listing, n).files)
    ensures RecordsOk(files, listing[..n], Migrate(files, listing, n))
  {
    if n == 0 {
      NothingVisited(files);
      assert listing[..0] == [];
    } else {
      MigrateKeepsInvariant(files, listing, n - 1);
      NextInListing(files, listing, n - 1);
      VisitKeepsFiles(files, listing[..n - 1], Migrate(files, listing, n - 1), listing[n - 1]);
      VisitKeepsRecords(files, listing[..n - 1], Migrate(files, listing, n - 1), listing[n - 1]);
    }
  }

  lemma NothingVisited(files: Files)
    requires WellNamed(files)
    ensures FilesOk(files, [], files) && RecordsOk(files, [], Pass(files, []))
  {
  }

  lemma NextInListing(files: Files, listing: seq<FileName>, n: nat)
    requires IsListing(files, listing) && n < |listing|
    ensures listing[n] in files && listing[n] !in listing[..n] && listing[..n + 1] == listing[..n] + [listing[n]]
  {
    assert listing[n] in listing;
  }

  lemma NextFileIsThere(files: Files, listing: seq<FileName>, n: nat)
    requires WellNamed(files) && IsListing(files, listing) && n < |listing|
    ensures listing[n] in Migrate(files, listing, n).files
  {
    MigrateKeepsInvariant(files, listing, n);
    NextInListing(files, listing, n);
  }

  lemma MigratedIsValid(files: Files, listing: seq<FileName>)
    requires WellNamed(files) && IsListing(files, listing)
    ensures WellNamed(Migrated(files, listing).files)
  {
    MigrateKeepsInvariant(files, listing, |listing|);
  }

  /** The pass invents no record. */
  lemma {:induction false} MigrateKeepsContents(files: Files, listing: seq<FileName>, n: nat)
    requires n <= |listing|
    ensures forall f :: f in Migrate(files, listing, n).files ==> Migrate(files, listing, n).files[f] in files.Values
  {
    if n > 0 {
      MigrateKeepsContents(files, listing, n - 1);
    }
  }

  /** Exactly one file per deposit is left, named by its id; a copy that already was named so wins. */
  lemma MigrationKeepsOneFilePerDeposit(files: Files, listing: seq<FileName>)
    requires WellNamed(files) && IsListing(files, listing)
    ensures var after := Migrated(files, listing).files;
            && WellNamed(after)
            && (forall f :: f in after ==> f.ById? && after[f] in files.Values)
            && (forall f :: f in files ==> ById(files[f].claim.id) in after)
            && (forall id :: ById(id) in files ==> after[ById(id)] == files[ById(id)])
  {
    assert listing[..|listing|] == listing;
    MigrateKeepsInvariant(files, listing, |listing|);
    MigrateKeepsContents(files, listing, |listing|);
  }

  /** The pass returns exactly the records that are left, one per deposit. */
  lemma MigrationReturnsEveryDepositOnce(files: Files, listing: seq<FileName>)
    requires WellNamed(files) && IsListing(files, listing)
    ensures var pass := Migrated(files, listing);
            && (forall r :: r in pass.records <==> ById(r.claim.id) in pass.files && pass.files[ById(r.claim.id)] == r)
            && (forall k, l :: 0 <= k < l < |pass.records| ==> pass.records[k].claim.id != pass.records[l].claim.id)
            && (forall f :: f in files ==> exists r :: r in pass.records && r.claim.id == files[f].claim.id)
  {
    assert listing[..|listing|] == listing;
    MigrateKeepsInvariant(files, listing, |listing|);
    MigrationKeepsOneFilePerDeposit(files, listing);
    var pass := Migrated(files, listing);
    forall r ensures r in pass.records <==> ById(r.claim.id) in pass.files && pass.files[ById(r.claim.id)] == r {
      if k :| 0 <= k < |pass.records| && pass.records[k] == r {
        assert Placed(files, listing[..|listing|], pass.files, pass.records[k]);
      }
    }
    forall f | f in files ensures exists r :: r in pass.records && r.claim.id == files[f].claim.id {
      assert pass.files[ById(files[f].claim.id)] in pass.records;
    }
  }

  lemma {:induction false} CanonicalFilesStay(files: Files, listing: seq<FileName>, n: nat)
    requires WellNamed(files) && IsListing(files, listing) && n <= |listing|
    requires forall f :: f in files ==> f.ById?
    ensures Migrate(files, listing, n).files == files
  {
    if n > 0 {
      CanonicalFilesStay(files, listing, n - 1);
      assert listing[n - 1] in listing;
    }
  }

  /** A second pass, in whatever order, changes no file and returns the same records. */
  lemma SecondMigrationChangesNothing(files: Files, listing: seq<FileName>, again: seq<FileName>)
    requires WellNamed(files) && IsListing(files, listing)
    requires WellNamed(Migrated(files, listing).files) && IsListing(Migrated(files, listing).files, again)
    ensures var first, second := Migrated(files, listing), Migrated(Migrated(files, listing).files, again);
            second.files == first.files && forall r :: r in second.records <==> r in first.records
  {
    var first := Migrated(files, listing);
    MigrationKeepsOneFilePerDeposit(files, listing);
    MigrationReturnsEveryDepositOnce(files, listing);
    CanonicalFilesStay(first.files, again, |again|);
    MigrationReturnsEveryDepositOnce(first.files, again);
  }

  // ----- the engine's methods -----

  datatype ReceiptLookup = NotMined | LookupFailed | Mined(ok: bool)

  class SweepEngine {
    var files: Files
    var gasFundingTxHashes: set<GasTx>

    ghost predicate Valid()
      reads this
    {
      WellNamed(files)
    }

    method SaveRecord(record: Record)
      requires Valid()
      modifies this`files
      ensures Valid() && files == old(files)[ById(record.claim.id) := record]
      ensures Disk(files) == Saved(old(Disk(files)), record)
    {
      files := files[ById(record.claim.id) := record];
    }

    /** Flags a failed sweep, unless its transaction was broadcast. */
    method PersistError(id: Id)
      requires Valid()
      modifies this`files
      ensures Valid() && Disk(files) == Flagged(old(Disk(files)), id)
      ensures forall f: FileName :: f.Legacy? ==>
                (f in files <==> f in old(files)) && (f in files ==> files[f] == old(files)[f])
    {
      if ById(id) !in files {
        return;
      }
      var record := files[ById(id)];
      if record.sweepTx.Some? {
        return;
      }
      files := files[ById(id) := record.(error := true)];
    }

    /** Promotes a record whose saved sweep was mined with status 1, if its chain is still served. */
    method ReconcileSweepTx(record: Record, lookup: ReceiptLookup, served: bool) returns (current: Record)
      requires Valid()
      modifies this`files
      ensures Valid()
      ensures current.stage != record.stage ==>
                && record.sweepTx.Some? && lookup == Mined(true) && served
                && Disk(files) == Saved(old(Disk(files)), current)
      ensures current == record || current == record.(stage := Swept)
      ensures current == record ==> files == old(files)
      ensures record.sweepTx.Some? && lookup == Mined(true) && served ==> current.stage == Swept
    {
      current := record;
      if record.stage == Swept {
        return;
      }
      if record.sweepTx.None? {
        return;
      }
      if lookup.NotMined? || lookup.LookupFailed? || !served {
        return;
      }
      if lookup.ok {
        current := current.(stage := Swept);
        SaveRecord(current);
      }
    }

    /** The load pass of startup and of every recovery round. */
    method LoadIncompleteSweeps(listing: seq<FileName>) returns (records: seq<Record>)
      requires Valid() && IsListing(files, listing)
      modifies this
      ensures Valid() && Pass(files, records) == Migrated(old(files), listing)
      ensures forall gas :: gas in gasFundingTxHashes <==>
                gas in old(gasFundingTxHashes) || exists r :: r in records && r.gasTx == Some(gas)
    {
      ghost var before := files;
      records := [];
      var i := 0;
      while i < |listing|
        invariant 0 <= i <= |listing| && before == old(files)
        invariant Pass(files, records) == Migrate(before, listing, i)
        invariant gasFundingTxHashes == old(gasFundingTxHashes) + GasHashes(records)
      {
        var path := listing[i];
        NextFileIsThere(before, listing, i);
        var record := files[path];
        var expected := ById(record.claim.id);
        i := i + 1;
        if path != expected {
          if expected in files {
            files := files - {path};
            continue;
          }
          files := (files - {path})[expected := record];
        }
        records := records + [record];
        if record.gasTx.Some? {
          gasFundingTxHashes := gasFundingTxHashes + {record.gasTx.value};
        }
      }
      MigratedIsValid(before, listing);
    }
  }

  function GasHashes(records: seq<Record>): set<GasTx> {
    set r | r in records && r.gasTx.Some? :: r.gasTx.value
  }
}
