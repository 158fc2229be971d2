/** The drain of the imported eMAIDs: pages are always read from the start, until one is empty. */
module EmaidsImportAsyncTask {
  import opened Prelude

  datatype ImportStatus = READY | ERROR

  type Records = map<int, ImportStatus>

  function Ready(records: Records): set<int> {
    set id | id in records && records[id] == READY
  }

  /** The records with some of them deleted and some of them marked faulty. */
  function Drained(records: Records, imported: set<int>, faulty: set<int>): Records {
    map id | id in records && id !in imported :: if id in faulty then ERROR else records[id]
  }

  lemma DeleteOne(records: Records, imported: set<int>, faulty: set<int>, id: int)
    ensures Drained(records, imported + {id}, faulty) == Drained(records, imported, faulty) - {id}
  {
  }

  lemma MarkOne(records: Records, imported: set<int>, faulty: set<int>, id: int)
    requires id in records && id !in imported
    ensures Drained(records, imported, faulty + {id}) == Drained(records, imported, faulty)[id := ERROR]
  {
  }

  lemma ReadyLeft(records: Records, imported: set<int>, faulty: set<int>)
    requires imported + faulty <= Ready(records)
    ensures Ready(Drained(records, imported, faulty)) == Ready(records) - imported - faulty
  {
  }

  /** Imported and faulty records are set apart and make up all that were READY once none is left. */
  lemma SharedOut(records: Records, imported: set<int>, faulty: set<int>)
    requires imported + faulty <= Ready(records) && imported !! faulty
    ensures |imported| + |faulty| <= |Ready(records)|
    ensures Ready(Drained(records, imported, faulty)) == {} ==> |imported| + |faulty| == |Ready(records)|
  {
    ReadyLeft(records, imported, faulty);
    var left := Ready(records) - (imported + faulty);
    assert Ready(records) == left + (imported + faulty);
    assert |imported + faulty| == |imported| + |faulty|;
    assert left == Ready(records) - imported - faulty;
  }

  lemma NoneLeft(records: Records, imported: set<int>, faulty: set<int>)
    requires imported + faulty <= Ready(records) && Ready(Drained(records, imported, faulty)) == {}
    ensures imported + faulty == Ready(records)
  {
    forall id | id in Ready(records)
      ensures id in imported + faulty
    {
      assert id !in Ready(Drained(records, imported, faulty));
    }
    assert Ready(records) <= imported + faulty;
  }

  lemma StaysApart(a: set<int>, b: set<int>, id: int)
    requires a !! b && id !in b
    ensures a + {id} !! b
  {
  }

  /** The READY records that can be imported. */
  function Importable(records: Records, hasImporter: bool, throws: int -> bool): set<int> {
    set id | id in records && records[id] == READY && hasImporter && !throws(id)
  }

  lemma SortedOut(records: Records, imported: set<int>, faulty: set<int>, hasImporter: bool, throws: int -> bool)
    requires var good := Importable(records, hasImporter, throws); imported <= good && faulty !! good
    requires imported + faulty == Ready(records)
    ensures imported == Importable(records, hasImporter, throws)
    ensures forall id <- records ::
              if records[id] == READY && hasImporter && !throws(id) then id !in Drained(records, imported, faulty)
              else id in Drained(records, imported, faulty) && Drained(records, imported, faulty)[id] == ERROR
  {
    var good := Importable(records, hasImporter, throws);
    forall id | id in good
      ensures id in imported
    {
      assert id in Ready(records);
    }
    assert good <= imported;
    forall id | id in records
      ensures id in good <==> records[id] == READY && hasImporter && !throws(id)
      ensures id in Ready(records) <==> records[id] == READY
    {
    }
  }

  class EmaidsImportAsyncTask {
    var records: Records
    var inSuccess: nat
    var inError: nat
    ghost var initial: Records
    ghost var imported: set<int>
    ghost var faulty: set<int>
    const hasImporter: bool    // whether the helper defines `processImportedEmaid`; without it every call throws
    const throws: int -> bool  // for which records importing or deleting throws

    constructor (records: Records, hasImporter: bool, throws: int -> bool)
      ensures this.records == records && this.hasImporter == hasImporter && this.throws == throws
    {
      this.records, this.hasImporter, this.throws := records, hasImporter, throws;
      inSuccess, inError := 0, 0;
      initial, imported, faulty := records, {}, {};
    }

    ghost predicate Draining()
      reads this
    {
      && imported + faulty <= Ready(initial) && imported !! faulty
      && records == Drained(initial, imported, faulty)
      && inSuccess == |imported| && inError == |faulty|
      && imported <= Importable(initial, hasImporter, throws) && faulty !! Importable(initial, hasImporter, throws)
    }

    /** Up to `limit` READY records, whichever the sort order puts first. */
    method GetImportedEmaids(limit: nat) returns (page: seq<int>)
      requires limit > 0
      ensures forall i, j :: 0 <= i < j < |page| ==> page[i] != page[j]
      ensures forall id <- page :: id in Ready(records)
      ensures page == [] ==> Ready(records) == {}
      ensures |page| <= limit && (|page| < limit ==> forall id <- Ready(records) :: id in page)
    {
      page := [];
      var rest := Ready(records);
      while rest != {} && |page| < limit
        invariant rest <= Ready(records) && (page == [] ==> rest == Ready(records))
        invariant forall i, j :: 0 <= i < j < |page| ==> page[i] != page[j]
        invariant forall id <- page :: id in Ready(records) && id !in rest
        invariant |page| <= limit && forall id <- Ready(records) :: id in page || id in rest
      {
        SomeMember(rest);
        var id :| id in rest;
        page, rest := page + [id], rest - {id};
      }
    }

    /** The record was imported: it is deleted. */
    method Delete(id: int)
      requires Draining() && id in Ready(records) && hasImporter && !throws(id)
      modifies this`records, this`inSuccess, this`imported
      ensures Draining() && Ready(records) == old(Ready(records)) - {id}
      ensures imported == old(imported) + {id} && |imported| == |old(imported)| + 1
    {
      ReadyLeft(initial, imported, faulty);
      DeleteOne(initial, imported, faulty, id);
      records := records - {id};
      inSuccess := inSuccess + 1;
      imported := imported + {id};
      ReadyLeft(initial, imported, faulty);
    }

    /** The import threw: the record is saved with the reason. */
    method MarkFaulty(id: int)
      requires Draining() && id in Ready(records) && (!hasImporter || throws(id))
      modifies this`records, this`inError, this`faulty
      ensures Draining() && Ready(records) == old(Ready(records)) - {id}
      ensures faulty == old(faulty) + {id} && |faulty| == |old(faulty)| + 1
    {
      ReadyLeft(initial, imported, faulty);
      MarkOne(initial, imported, faulty, id);
      StaysApart(faulty, Importable(initial, hasImporter, throws), id);
      inError := inError + 1;
      records := records[id := ERROR];
      faulty := faulty + {id};
      ReadyLeft(initial, imported, faulty);
    }

    method ProcessPage(page: seq<int>)
      requires Draining()
      requires forall i, j :: 0 <= i < j < |page| ==> page[i] != page[j]
      requires forall id <- page :: id in Ready(records)
      modifies this`records, this`inSuccess, this`inError, this`imported, this`faulty
      ensures Draining()
      ensures old(imported) <= imported && old(faulty) <= faulty
      ensures |imported| + |faulty| == |old(imported)| + |old(faulty)| + |page|
    {
      assert forall j :: 0 <= j < |page| ==> page[j] in page;
      for i := 0 to |page|
        invariant Draining()
        invariant forall j :: i <= j < |page| ==> page[j] in Ready(records)
        invariant old(imported) <= imported && old(faulty) <= faulty
        invariant |imported| + |faulty| == |old(imported)| + |old(faulty)| + i
      {
        ProcessOne(page[i]);
      }
    }

    method ProcessOne(id: int)
      requires Draining() && id in Ready(records)
      modifies this`records, this`inSuccess, this`inError, this`imported, this`faulty
      ensures Draining() && Ready(records) == old(Ready(records)) - {id}
      ensures |imported| + |faulty| == |old(imported)| + |old(faulty)| + 1
      ensures if hasImporter && !throws(id) then imported == old(imported) + {id} && faulty == old(faulty)
              else faulty == old(faulty) + {id} && imported == old(imported)
    {
      if throws(id) || !hasImporter {
        MarkFaulty(id);
      } else {
        Delete(id);
      }
    }

    /** The drain: a record that goes through is deleted, and any other one ends as ERROR. */
    method ExecuteAsyncTask(locked: bool, limit: nat)
      requires limit > 0
      modifies this
      ensures !locked ==> records == old(records)
      ensures locked ==> Ready(records) == {} && initial == old(records)
      ensures locked ==> imported + faulty == Ready(old(records)) && imported !! faulty
      ensures locked ==> records == Drained(old(records), imported, faulty)
      ensures locked ==> forall id <- old(records) ::
                if old(records)[id] == READY && hasImporter && !throws(id) then id !in records
                else id in records && records[id] == ERROR
      ensures locked ==> forall id <- records :: id in old(records)
      ensures locked ==> inSuccess == |Importable(old(records), hasImporter, throws)|
      ensures locked ==> inSuccess == |imported| && inError == |faulty|
      ensures locked ==> inSuccess + inError == |Ready(old(records))|
    {
      if !locked {
        return;
      }
      Start();
      Drain(limit);
      SharedOut(initial, imported, faulty);
      NoneLeft(initial, imported, faulty);
      SortedOut(initial, imported, faulty, hasImporter, throws);
    }

    method Start()
      modifies this
      ensures Draining() && initial == records == old(records)
    {
      inSuccess, inError := 0, 0;
      initial, imported, faulty := records, {}, {};
    }

    /** Page after page, until one is empty. */
    method Drain(limit: nat)
      requires Draining() && limit > 0
      modifies this`records, this`inSuccess, this`inError, this`imported, this`faulty
      ensures Draining() && Ready(records) == {}
    {
      var more := true;
      while more
        invariant Draining()
        invariant !more ==> Ready(records) == {}
        decreases more, |Ready(initial)| - |imported| - |faulty|
      {
        var page := GetImportedEmaids(limit);
        SharedOut(initial, imported, faulty);
        ProcessPage(page);
        SharedOut(initial, imported, faulty);
        more := page != [];
      }
    }
  }
}
