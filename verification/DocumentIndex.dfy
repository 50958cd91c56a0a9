/** A reviewer's view of an applicant's documents, keyed by what each document is. */
module DocumentIndex {
  import opened AccountRules
  import opened AccountInvariants

  datatype Row = Row(id: string, fileType: FileType)

  /** The row at `i` is the latest upload of its type. */
  predicate IsLatest(media: seq<Row>, i: int) {
    0 <= i < |media| && forall j :: i < j < |media| ==> media[j].fileType != media[i].fileType
  }

  /** Each type that was uploaded leads to its latest upload, and no other type leads anywhere. */
  ghost predicate LatestByType(media: seq<Row>, out: map<FileType, string>) {
    && (forall i :: 0 <= i < |media| ==> media[i].fileType in out)
    && (forall t :: t in out ==> exists i :: IsLatest(media, i) && media[i].fileType == t && out[t] == media[i].id)
  }

  lemma OneMoreRow(media: seq<Row>, n: nat, out: map<FileType, string>)
    requires n < |media| && LatestByType(media[..n], out)
    ensures LatestByType(media[..n + 1], out[media[n].fileType := media[n].id])
  {
    var before, now := media[..n], media[..n + 1];
    var out' := out[media[n].fileType := media[n].id];
    forall t | t in out' ensures exists i :: IsLatest(now, i) && now[i].fileType == t && out'[t] == now[i].id {
      if t == media[n].fileType {
        assert IsLatest(now, n);
      } else {
        var i :| IsLatest(before, i) && before[i].fileType == t && out[t] == before[i].id;
        assert IsLatest(now, i);
      }
    }
  }

  /** The rows come oldest first, so a later upload of a type replaces an earlier one. */
  method DocumentIdsByType(media: seq<Row>) returns (out: map<FileType, string>)
    ensures LatestByType(media, out)
  {
    out := map[];
    for n := 0 to |media|
      invariant LatestByType(media[..n], out)
    {
      OneMoreRow(media, n, out);
      out := out[media[n].fileType := media[n].id];
    }
    assert media[..|media|] == media;
  }

  ghost predicate OneOfEachType(media: seq<Row>) {
    forall i, j :: 0 <= i < j < |media| ==> media[i].fileType != media[j].fileType
  }

  ghost predicate NothingHidden(media: seq<Row>, out: map<FileType, string>) {
    forall i :: 0 <= i < |media| ==> media[i].fileType in out && out[media[i].fileType] == media[i].id
  }

  /** No document is hidden behind another exactly when no type was uploaded twice. */
  lemma NothingHiddenIff(media: seq<Row>, out: map<FileType, string>)
    requires LatestByType(media, out)
    requires forall i, j :: 0 <= i < j < |media| ==> media[i].id != media[j].id
    ensures NothingHidden(media, out) <==> OneOfEachType(media)
  {
    if OneOfEachType(media) {
      forall k | 0 <= k < |media| ensures media[k].fileType in out && out[media[k].fileType] == media[k].id {
        var i :| IsLatest(media, i) && media[i].fileType == media[k].fileType && out[media[k].fileType] == media[i].id;
        assert i == k;
      }
    }
  }

  /** The stored documents of an account, listed in some order. */
  ghost predicate Lists(media: seq<Row>, docs: map<string, Doc>) {
    && (forall i :: 0 <= i < |media| ==> media[i].id in docs && docs[media[i].id].fileType == media[i].fileType)
    && (forall i, j :: 0 <= i < j < |media| ==> media[i].id != media[j].id)
    && (forall id :: id in docs ==> exists i :: 0 <= i < |media| && media[i].id == id)
  }

  /** On every run the reviewer finds each of the applicant's documents under its own type. */
  lemma EveryDocumentIsFound(moves: seq<Move>, media: seq<Row>, out: map<FileType, string>)
    requires Reaches(moves) && Lists(media, Run(NOTHING, moves).docs) && LatestByType(media, out)
    ensures forall id :: id in Run(NOTHING, moves).docs ==>
      var t := Run(NOTHING, moves).docs[id].fileType; t in out && out[t] == id
  {
    var s := Run(NOTHING, moves);
    EveryReachableState(moves);
    forall i, j | 0 <= i < j < |media| ensures media[i].fileType != media[j].fileType {
      assert media[i].id in s.docs && media[j].id in s.docs;
    }
    NothingHiddenIff(media, out);
    forall id | id in s.docs ensures s.docs[id].fileType in out && out[s.docs[id].fileType] == id {
      var i :| 0 <= i < |media| && media[i].id == id;
    }
  }
}
