/**
 The mutable job aggregate of backend/src/contexts/ocr/domain/models.py. Every method is
 proved against what it does to the stored form of the object (Data); a method that raises
 ValueError in the source returns false here and leaves the object as it was.
 */
module Aggregate {
  import opened Domain

  class Page {
    var number: nat
    var inputKey: Key
    var state: PageState
    var attempts: nat
    var resultKey: Option<Key>
    var resultSha: Option<Digest>
    var visualKey: Option<Key>
    var code: int
    var reason: string

    constructor (d: PageData)
      ensures Data() == d
    {
      number, inputKey, state, attempts := d.number, d.inputKey, d.state, d.attempts;
      resultKey, resultSha, visualKey := d.resultKey, d.resultSha, d.visualKey;
      code, reason := d.code, d.reason;
    }

    function Data(): PageData
      reads this
    {
      PageData(number, inputKey, state, attempts, resultKey, resultSha, visualKey, code, reason)
    }

    method Start()
      modifies this
      ensures Data() == StartedPage(old(Data()))
    {
      if state == PageSucceeded {
        return;
      }
      state := PageRunning;
      attempts := attempts + 1;
      code := 0;
      reason := "";
    }

    method Succeed(key: Key, sha: Digest, visual: Option<Key>)
      modifies this
      ensures Data() == SucceededPage(old(Data()), key, sha, visual)
    {
      state := PageSucceeded;
      resultKey := Some(key);
      resultSha := Some(sha);
      visualKey := visual;
      code := 0;
      reason := "";
    }

    method Fail(why: string, failureCode: int)
      modifies this
      ensures Data() == FailedPage(old(Data()), failureCode, why)
    {
      state := PageFailed;
      code := failureCode;
      reason := why;
    }

    // The assignments the worker makes before it schedules another try.
    method Note(why: string, failureCode: int)
      modifies this
      ensures Data() == NotedPage(old(Data()), failureCode, why)
    {
      code := failureCode;
      reason := why;
    }

    method PrepareRetry()
      modifies this
      ensures Data() == ResetPage(old(Data()))
    {
      if state != PageSucceeded {
        state := PagePending;
        attempts := 0;
        reason := "";
        resultKey := None;
        resultSha := None;
        visualKey := None;
        code := 0;
      }
    }
  }

  function PagesData(pages: seq<Page>): (r: seq<PageData>)
    reads pages
    ensures |r| == |pages|
    ensures forall i | 0 <= i < |pages| :: r[i] == pages[i].Data()
  {
    if pages == [] then [] else [pages[0].Data()] + PagesData(pages[1..])
  }

  ghost predicate Distinct(pages: seq<Page>) {
    forall i, j | 0 <= i < j < |pages| :: pages[i] != pages[j]
  }

  // The page loop of a job retry.
  method PreparePageRetries(pages: seq<Page>)
    requires Distinct(pages)
    modifies pages
    ensures PagesData(pages) == ResetPages(old(PagesData(pages)))
  {
    for i := 0 to |pages|
      invariant forall j | 0 <= j < i :: pages[j].Data() == ResetPage(old(pages[j].Data()))
      invariant forall j | i <= j < |pages| :: pages[j].Data() == old(pages[j].Data())
    {
      pages[i].PrepareRetry();
    }
  }

  class Job {
    const id: JobId
    const spec: JobSpec
    var request: string
    var state: JobState
    var attempt: nat
    var revision: nat
    var pages: seq<Page>
    var artifacts: seq<Artifact>
    var code: int
    var reason: string

    ghost predicate Valid()
      reads this
    {
      Distinct(pages)
    }

    function Data(): JobData
      reads this, pages
    {
      JobData(id, spec, request, state, attempt, revision, PagesData(pages),
              SetOf(artifacts), code, reason)
    }

    lemma Columns()
      ensures Data().id == id && Data().spec == spec && Data().state == state && Data().attempt == attempt
      ensures Data().revision == revision && |Data().pages| == |pages|
    {}

    lemma ErrorColumns()
      ensures Data().code == code && Data().reason == reason
    {}

    lemma PageColumns(i: nat)
      requires i < |pages|
      ensures i < |Data().pages| && Data().pages[i] == pages[i].Data()
    {}

    // An object as the repository rebuilds it from its rows.
    constructor Load(d: JobData, pageObjects: seq<Page>, artifactList: seq<Artifact>)
      requires Distinct(pageObjects) && PagesData(pageObjects) == d.pages
      requires SetOf(artifactList) == d.artifacts
      ensures Valid() && Data() == d && pages == pageObjects
    {
      id, spec, request, state, attempt, revision := d.id, d.spec, d.request, d.state, d.attempt, d.revision;
      pages := pageObjects;
      artifacts := artifactList;
      code, reason := d.code, d.reason;
    }

    method Transition(target: JobState, allowed: set<JobState>) returns (ok: bool)
      requires Valid()
      modifies this
      ensures Valid() && ok == (old(state) in allowed) && pages == old(pages)
      ensures Data() == if ok then old(Data()).(state := target) else old(Data())
    {
      if state !in allowed {
        return false;
      }
      state := target;
      return true;
    }

    method BeginPreprocessing() returns (ok: bool)
      requires Valid()
      modifies this
      ensures Valid() && ok == (old(state) in {Queued, Retrying}) && pages == old(pages)
      ensures Data() == if ok then old(Data()).(state := Preprocessing) else old(Data())
    {
      ok := Transition(Preprocessing, {Queued, Retrying});
    }

    method SetPages(newPages: seq<Page>) returns (ok: bool)
      requires Valid() && Distinct(newPages)
      modifies this
      ensures Valid() && ok == (old(state) == Preprocessing && newPages != [])
      ensures pages == if ok then newPages else old(pages)
      ensures Data() == if ok then old(Data()).(pages := PagesData(newPages)) else old(Data())
    {
      if state != Preprocessing || newPages == [] {
        return false;
      }
      pages := newPages;
      return true;
    }

    method BeginRunning() returns (ok: bool)
      requires Valid()
      modifies this
      ensures Valid() && ok == (old(state) == Preprocessing) && pages == old(pages)
      ensures Data() == if ok then old(Data()).(state := Running) else old(Data())
    {
      ok := Transition(Running, {Preprocessing});
    }

    method RequestCancel() returns (ok: bool)
      requires Valid()
      modifies this
      ensures Valid() && ok == (old(state) in {Queued, Preprocessing, Running, Assembling, Retrying})
      ensures pages == old(pages)
      ensures Data() == if ok then old(Data()).(state := CancelRequested) else old(Data())
    {
      ok := Transition(CancelRequested, {Queued, Preprocessing, Running, Assembling, Retrying});
    }

    method Cancel() returns (ok: bool)
      requires Valid()
      modifies this
      ensures Valid() && ok == (old(state) == CancelRequested) && pages == old(pages)
      ensures Data() == if ok then old(Data()).(state := Cancelled) else old(Data())
    {
      ok := Transition(Cancelled, {CancelRequested});
    }

    // page.start() and its like, on one page of this job

    method StartPage(i: nat)
      requires Valid() && i < |pages|
      modifies pages[i]
      ensures Data() == WithPage(old(Data()), i, StartedPage(old(Data()).pages[i]))
    {
      pages[i].Start();
      PageReplaced(i, StartedPage(old(pages[i].Data())), old(Data()));
    }

    method NotePage(i: nat, why: string, failureCode: int)
      requires Valid() && i < |pages|
      modifies pages[i]
      ensures Data() == WithPage(old(Data()), i, NotedPage(old(Data()).pages[i], failureCode, why))
    {
      pages[i].Note(why, failureCode);
      PageReplaced(i, NotedPage(old(pages[i].Data()), failureCode, why), old(Data()));
    }

    method SucceedPage(i: nat, key: Key, sha: Digest, visual: Option<Key>)
      requires Valid() && i < |pages|
      modifies pages[i]
      ensures Data() == WithPage(old(Data()), i, SucceededPage(old(Data()).pages[i], key, sha, visual))
    {
      pages[i].Succeed(key, sha, visual);
      PageReplaced(i, SucceededPage(old(pages[i].Data()), key, sha, visual), old(Data()));
    }

    method FailPage(i: nat, why: string, failureCode: int)
      requires Valid() && i < |pages|
      modifies pages[i]
      ensures Data() == WithPage(old(Data()), i, FailedPage(old(Data()).pages[i], failureCode, why))
    {
      pages[i].Fail(why, failureCode);
      PageReplaced(i, FailedPage(old(pages[i].Data()), failureCode, why), old(Data()));
    }

    lemma PageReplaced(i: nat, p: PageData, was: JobData)
      requires Valid() && i < |pages| == |was.pages| && pages[i].Data() == p
      requires forall j | 0 <= j < |pages| && j != i :: pages[j].Data() == was.pages[j]
      requires Data().(pages := was.pages) == was
      ensures Data() == WithPage(was, i, p)
    {
      assert PagesData(pages) == was.pages[i := p];
    }

    method BeginAssembling() returns (ok: bool)
      requires Valid()
      modifies this
      ensures Valid() && ok == (old(state) == Running) && pages == old(pages)
      ensures Data() == if ok then old(Data()).(state := Assembling) else old(Data())
    {
      ok := Transition(Assembling, {Running});
    }

    method Succeed(list: seq<Artifact>) returns (ok: bool)
      requires Valid()
      modifies this
      ensures Valid() && pages == old(pages)
      ensures ok == (old(state) == Assembling && pages != [] && AllSucceeded(old(Data()).pages))
      ensures Data() == if ok
                        then old(Data()).(state := Succeeded, artifacts := SetOf(list), code := 0, reason := "")
                        else old(Data())
    {
      var complete := pages != [];
      for i := 0 to |pages|
        invariant complete == (pages != [] && forall j | 0 <= j < i :: pages[j].state == PageSucceeded)
      {
        complete := complete && pages[i].state == PageSucceeded;
      }
      if !complete {
        return false;
      }
      ok := Transition(Succeeded, {Assembling});
      if ok {
        artifacts := list;
        code := 0;
        reason := "";
      }
    }

    method Fail(why: string, failureCode: int) returns (ok: bool)
      requires Valid()
      modifies this
      ensures Valid() && pages == old(pages)
      ensures ok == (old(state) in {Queued, Preprocessing, Running, Assembling, Retrying, CancelRequested})
      ensures Data() == if ok then old(Data()).(state := Failed, code := failureCode, reason := why)
                        else old(Data())
    {
      ok := Transition(Failed, {Queued, Preprocessing, Running, Assembling, Retrying, CancelRequested});
      if ok {
        code := failureCode;
        reason := why;
      }
    }

    static lemma NoArtifacts()
      ensures SetOf([]) == {}
    {}

    method Retry(newRequest: string) returns (ok: bool)
      requires Valid()
      modifies this, pages
      ensures Valid() && ok == (old(state) in {Failed, Cancelled}) && pages == old(pages)
      ensures Data() == if ok
                        then old(Data()).(state := Retrying, attempt := old(attempt) + 1, request := newRequest,
                             code := 0, reason := "", artifacts := {}, pages := ResetPages(old(Data()).pages))
                        else old(Data())
    {
      hide PagesData, Distinct, SetOf;
      ok := Transition(Retrying, {Failed, Cancelled});
      if !ok {
        return;
      }
      attempt := attempt + 1;
      request := newRequest;
      code := 0;
      reason := "";
      artifacts := [];
      NoArtifacts();
      PreparePageRetries(pages);
    }
  }
}
