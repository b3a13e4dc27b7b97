/**
 What the worker knows while it assembles an attempt: every object it lists is stored with the
 digest it lists, and the list is exactly the documents, page images and visualizations.
 */
module AssemblyFacts {
  import opened Domain
  import opened History
  import opened EventLog
  import opened World
  import opened Commits
  import opened Rely
  import opened Awaits
  import opened WorkerFacts

  // What a page image or a visualization holds, whoever wrote it.
  function ContentOf(c: Config, spec: JobSpec, key: Key): Blob {
    match key
    case PageImage(_, _, n) => c.render(spec.upload, n)
    case Visualization(_, _, n) => VisualOf(c, spec, n)
    case _ => Raw([])
  }

  // The listed objects are there as long as the job is visible.
  ghost predicate Listed(w: State, id: JobId, body: seq<Artifact>) {
    IsLive(w, id) ==> forall a | a in body :: a.key in w.objects && a.key.job == id
  }

  // The list after the documents and the first n pages.
  ghost predicate Collected(c: Config, w: State, v: JobData, k: nat, n: nat, body: seq<Artifact>) {
    && n <= |v.pages| && BodyOk(c, v, k, body) && Listed(w, v.id, body)
    && (c.solo ==> body == [MarkdownArtifact(c, v, k), JsonArtifact(c, v, k)] + PageArtifacts(c, v.spec, v.pages[..n]))
  }

  // Everything the final save will refer to.
  ghost predicate Assembled(c: Config, w: State, v: JobData, k: nat, body: seq<Artifact>, stamp: nat) {
    && v.pages != [] && BodyOk(c, v, k, body) && Reached(w, v.id, k)
    && (c.solo ==> k == v.attempt && body == ManifestBody(c, v, k))
    && Listed(w, v.id, body)
    && (IsLive(w, v.id) ==>
          && Manifest(v.id, k) in w.objects
          && (c.solo ==> w.objects[Manifest(v.id, k)] == ManifestJson(v.id, k, body, stamp)))
  }

  lemma ListedCarried(w: State, x: State, id: JobId, body: seq<Artifact>)
    requires Evolves(w, x) && id in w.jobs && Listed(w, id, body)
    ensures Listed(x, id, body)
  {
    assert RecEvolves(w.jobs[id], x.jobs[id]);
  }

  lemma CollectedCarried(c: Config, w: State, x: State, v: JobData, k: nat, n: nat, body: seq<Artifact>)
    requires Evolves(w, x) && v.id in w.jobs && Collected(c, w, v, k, n, body)
    ensures Collected(c, x, v, k, n, body)
  {
    hide BodyOk, PageArtifacts, Evolves;
    ListedCarried(w, x, v.id, body);
  }

  lemma AssembledCarried(c: Config, w: State, x: State, v: JobData, k: nat, body: seq<Artifact>, stamp: nat)
    requires Quiet(c, v.id, w, x) && v.id in w.jobs && Assembled(c, w, v, k, body, stamp)
    ensures Assembled(c, x, v, k, body, stamp)
  {
    hide BodyOk, ManifestBody, Inv, Listed;
    ListedCarried(w, x, v.id, body);
    assert RecEvolves(w.jobs[v.id], x.jobs[v.id]);
  }

  // ---- single objects ----

  lemma ResultContent(c: Config, w: State, v: JobData, i: nat, b: Blob)
    requires Inv(c, w) && Sound(c, w, v) && i < |v.pages| && v.pages[i].resultKey.Some?
    requires v.pages[i].resultKey.value in w.objects && b == w.objects[v.pages[i].resultKey.value]
    ensures b.ResultJson? && b.reading == c.ReadingOf(v.spec, i + 1)
  {
    hide JobsOk, KeptOk, CountersOk, ConstraintsOk, OutboxOk, QueueOk, Held;
    SeenSpec(c, w, v);
    assert ContentOk(c, SpecOf(w, v.id), v.pages[i].resultKey.value, b);
  }

  lemma ListedContent(c: Config, w: State, v: JobData, key: Key)
    requires Inv(c, w) && Sound(c, w, v) && key.job == v.id && (key.PageImage? || key.Visualization?) && key in w.objects
    ensures w.objects[key] == ContentOf(c, v.spec, key)
  {
    hide JobsOk, KeptOk, CountersOk, ConstraintsOk, OutboxOk, QueueOk, Held, Numbered;
    SeenSpec(c, w, v);
    assert ContentOk(c, SpecOf(w, v.id), key, w.objects[key]);
  }

  // The keys of page i belong to the job and the page.
  lemma PageKeys(c: Config, w: State, v: JobData, i: nat)
    requires Sound(c, w, v) && i < |v.pages|
    ensures v.pages[i].number == i + 1 && v.pages[i].inputKey.PageImage? && v.pages[i].inputKey.job == v.id
    ensures v.pages[i].inputKey.number == i + 1
    ensures v.pages[i].visualKey.Some? ==>
              v.pages[i].visualKey.value.Visualization? && v.pages[i].visualKey.value.job == v.id
              && v.pages[i].visualKey.value.number == i + 1
    ensures v.pages[i].resultKey.Some? ==> v.pages[i].resultKey.value.job == v.id
  {
    hide Seen, Held;
  }

  lemma ListedIsThere(c: Config, w: State, v: JobData, i: nat, key: Key)
    requires Inv(c, w) && Sound(c, w, v) && i < |v.pages|
    requires key == v.pages[i].inputKey || Some(key) == v.pages[i].visualKey
    ensures c.solo && Owned(v.state) ==> key in w.objects
  {
    hide Inv, Seen, Numbered, Held;
    if c.solo && Owned(v.state) {
      HeldKept(c, w, v);
      assert PageKept(c, w.objects, v.pages[i]);
    }
  }

  lemma KeyStays(w: State, x: State, id: JobId, key: Key)
    requires Evolves(w, x) && id in w.jobs && key.job == id && (IsLive(w, id) ==> key in w.objects)
    ensures IsLive(x, id) ==> key in x.objects
  {
    assert RecEvolves(w.jobs[id], x.jobs[id]);
  }

  lemma DocumentWritable(c: Config, w: State, v: JobData, k: nat, key: Key, b: Blob)
    requires Inv(c, w) && Sound(c, w, v) && Owned(v.state) && v.pages != []
    requires (key == DocumentMarkdown(v.id, k) && b == DocumentText(c, v))
             || (key == DocumentJson(v.id, k) && b == DocumentStructure(c, v, k))
    ensures Writable(c, w, v, key, b)
  {
    hide Inv, Held;
    SeenSpec(c, w, v);
  }

  lemma ManifestWritable(c: Config, w: State, v: JobData, k: nat, body: seq<Artifact>, stamp: nat)
    requires Inv(c, w) && Sound(c, w, v) && Owned(v.state)
    ensures Writable(c, w, v, Manifest(v.id, k), ManifestJson(v.id, k, body, stamp))
  {
    hide Inv, Held, Numbered;
    SeenSpec(c, w, v);
  }

  // With one live worker the objects of the copy in hand are there.
  lemma HeldKept(c: Config, w: State, v: JobData)
    requires Inv(c, w) && Held(c, w, v) && c.solo
    ensures forall i | 0 <= i < |v.pages| :: PageKept(c, w.objects, v.pages[i])
  {
    hide JobsOk, ObjectsOk, CountersOk, ConstraintsOk, OutboxOk, QueueOk, PageKept;
    assert Kept(c, w.objects, Current(w, v.id));
  }

  lemma CurrentKept(c: Config, w: State, v: JobData, i: nat)
    requires Inv(c, w) && ExactlyCurrent(w, v) && i < |v.pages|
    ensures v.pages[i].state == PageSucceeded ==>
              v.pages[i].resultKey.Some? && v.pages[i].resultKey.value in w.objects
    ensures v.pages[i].inputKey in w.objects
    ensures v.pages[i].visualKey.Some? ==> v.pages[i].visualKey.value in w.objects
  {
    hide JobsOk, ObjectsOk, CountersOk, ConstraintsOk, OutboxOk, QueueOk;
    assert Kept(c, w.objects, v);
    assert PageKept(c, w.objects, v.pages[i]);
  }

  // ---- the list ----

  lemma StartsCollected(c: Config, w: State, v: JobData, k: nat)
    requires Listed(w, v.id, [MarkdownArtifact(c, v, k), JsonArtifact(c, v, k)])
    ensures Collected(c, w, v, k, 0, [MarkdownArtifact(c, v, k), JsonArtifact(c, v, k)])
  {
    assert v.pages[..0] == [];
  }

  function ImageItem(c: Config, spec: JobSpec, p: PageData): Artifact {
    Artifact(PageImageKind, p.inputKey, c.sha(ContentOf(c, spec, p.inputKey)), Some(p.number))
  }

  function VisualItem(c: Config, spec: JobSpec, p: PageData): Artifact
    requires p.visualKey.Some?
  {
    Artifact(VisualizationKind, p.visualKey.value, c.sha(ContentOf(c, spec, p.visualKey.value)), Some(p.number))
  }

  // What page n adds to the list: its image and its visualization, each only if found.
  lemma CollectedPage(c: Config, w: State, v: JobData, k: nat, n: nat, body: seq<Artifact>, more: seq<Artifact>)
    requires Sound(c, w, v) && Collected(c, w, v, k, n, body) && PageListed(c, w, v, n, more)
    ensures Collected(c, w, v, k, n + 1, body + more)
  {
    hide Sound, PageArtifacts;
    PageKeys(c, w, v, n);
    var p := v.pages[n];
    BodyGrows(c, v, k, body, more);
    if c.solo {
      PageArtifactsGrow(c, v.spec, v.pages, n);
      var docs := [MarkdownArtifact(c, v, k), JsonArtifact(c, v, k)];
      assert body + more == docs + (PageArtifacts(c, v.spec, v.pages[..n]) + more);
    }
  }

  lemma BodyGrows(c: Config, v: JobData, k: nat, body: seq<Artifact>, more: seq<Artifact>)
    requires BodyOk(c, v, k, body)
    requires forall a | a in more ::
               ((a.kind == PageImageKind && a.key.PageImage?) || (a.kind == VisualizationKind && a.key.Visualization?))
               && a.key.job == v.id && a.page == Some(a.key.number)
    ensures BodyOk(c, v, k, body + more)
  {}

  lemma PageArtifactsGrow(c: Config, spec: JobSpec, pages: seq<PageData>, n: nat)
    requires n < |pages|
    requires pages[n].inputKey.PageImage? && pages[n].inputKey.number == pages[n].number
    requires pages[n].visualKey.Some? ==>
               pages[n].visualKey.value.Visualization? && pages[n].visualKey.value.number == pages[n].number
    ensures PageArtifacts(c, spec, pages[..n + 1]) == PageArtifacts(c, spec, pages[..n]) + [ImageItem(c, spec, pages[n])]
              + if pages[n].visualKey.Some? then [VisualItem(c, spec, pages[n])] else []
  {
    assert pages[..n + 1][..n] == pages[..n];
  }

  // The artifacts page n adds.
  ghost predicate PageListed(c: Config, w: State, v: JobData, n: nat, more: seq<Artifact>) {
    && n < |v.pages|
    && (forall a | a in more ::
          a == ImageItem(c, v.spec, v.pages[n])
          || (v.pages[n].visualKey.Some? && a == VisualItem(c, v.spec, v.pages[n])))
    && (IsLive(w, v.id) ==> forall a | a in more :: a.key in w.objects)
    && (c.solo ==> more == [ImageItem(c, v.spec, v.pages[n])]
                         + if v.pages[n].visualKey.Some? then [VisualItem(c, v.spec, v.pages[n])] else [])
  }

  lemma AllCollected(c: Config, w: State, v: JobData, k: nat, body: seq<Artifact>, stamp: nat)
    requires Collected(c, w, v, k, |v.pages|, body) && v.pages != [] && Reached(w, v.id, k) && (c.solo ==> k == v.attempt)
    requires IsLive(w, v.id) ==>
               Manifest(v.id, k) in w.objects && w.objects[Manifest(v.id, k)] == ManifestJson(v.id, k, body, stamp)
    ensures Assembled(c, w, v, k, body, stamp)
  {
    hide PageArtifacts, BodyOk, Listed;
    assert v.pages[..|v.pages|] == v.pages;
  }

  // ---- the final save ----

  lemma {:induction false} PageArtifactContent(c: Config, w: State, v: JobData, n: nat, a: Artifact)
    requires Inv(c, w) && Sound(c, w, v) && n <= |v.pages| && a in PageArtifacts(c, v.spec, v.pages[..n])
    requires a.key in w.objects
    ensures a.sha == c.sha(w.objects[a.key]) && a.key.job == v.id
  {
    hide Inv, Sound;
    if n > 0 {
      assert v.pages[..n][..n - 1] == v.pages[..n - 1];
      PageKeys(c, w, v, n - 1);
      if a in PageArtifacts(c, v.spec, v.pages[..n - 1]) {
        PageArtifactContent(c, w, v, n - 1, a);
      } else {
        ListedContent(c, w, v, a.key);
      }
    }
  }

  lemma DocumentContent(c: Config, w: State, v: JobData, k: nat, key: Key)
    requires Inv(c, w) && Sound(c, w, v) && v.pages != [] && key in w.objects
    requires key == DocumentMarkdown(v.id, k) || key == DocumentJson(v.id, k)
    ensures w.objects[key] == if key.DocumentMarkdown? then DocumentText(c, v) else DocumentStructure(c, v, k)
  {
    hide JobsOk, KeptOk, CountersOk, ConstraintsOk, OutboxOk, QueueOk, Held;
    SeenSpec(c, w, v);
    assert ContentOk(c, SpecOf(w, v.id), key, w.objects[key]);
  }

  /** With one live worker, every object the manifest lists is stored with the digest listed. */
  lemma ListedDigests(c: Config, w: State, v: JobData, k: nat, a: Artifact)
    requires Inv(c, w) && Sound(c, w, v) && v.pages != [] && a in ManifestBody(c, v, k) && a.key in w.objects
    ensures ArtifactKept(c, w.objects, v.id, a)
  {
    hide Inv, Sound, PageArtifacts, DocumentText, DocumentStructure;
    if a == MarkdownArtifact(c, v, k) || a == JsonArtifact(c, v, k) {
      DocumentContent(c, w, v, k, a.key);
    } else {
      assert v.pages[..|v.pages|] == v.pages;
      PageArtifactContent(c, w, v, |v.pages|, a);
    }
  }

  lemma BodySame(c: Config, u: JobData, v: JobData, k: nat, body: seq<Artifact>)
    requires BodyOk(c, v, k, body) && u.id == v.id && u.spec == v.spec && |u.pages| == |v.pages|
    ensures BodyOk(c, u, k, body)
  {}

  lemma AssembledBacked(c: Config, w: State, base: JobData, v: JobData, k: nat, body: seq<Artifact>, stamp: nat)
    requires Inv(c, w) && Sound(c, w, v) && Assembled(c, w, v, k, body, stamp) && base.id == v.id && IsLive(w, v.id)
    ensures Backed(c, w, base, Action.Succeed(k, body, stamp))
  {
    hide Inv, Sound, BodyOk, ManifestBody, Reached, ArtifactKept;
    forall a | a in body ensures ArtifactKept(c, w.objects, base.id, a) {
      if c.solo {
        ListedDigests(c, w, v, k, a);
      } else {
        AnyDigest(c, w.objects, base.id, a);
      }
    }
  }

  lemma AnyDigest(c: Config, objects: map<Key, Blob>, id: JobId, a: Artifact)
    requires !c.solo && a.key in objects && a.key.job == id
    ensures ArtifactKept(c, objects, id, a)
  {}

  // The reload can be saved as succeeded with what was assembled from the copy before.
  lemma SucceedReady(c: Config, w: State, v: JobData, base: JobData, u: JobData, k: nat, body: seq<Artifact>, stamp: nat)
    requires Inv(c, w) && Sound(c, w, v) && Assembled(c, w, v, k, body, stamp) && Sound(c, w, base) && base.id == v.id
    requires base.state == Assembling && base.pages != [] && AllSucceeded(base.pages)
    requires c.solo ==> SameButCancel(base, v)
    requires u == base.(state := JobState.Succeeded, code := 0, reason := "",
                        artifacts := SetOf(body + [ManifestArtifact(c, v, k, body, stamp)]))
    ensures CanSave(c, w, u, Action.Succeed(k, body, stamp))
    ensures KindOf(Entry(Action.Succeed(k, body, stamp), u)) == JobSucceeded
  {
    hide Inv, Held, Seen, CanSave, ManifestBody, BodyOk, Listed, Backed, PageArtifacts;
    SameSpec(c, w, v, base);
    BodySame(c, base, v, k, body);
    if IsLive(w, v.id) { AssembledBacked(c, w, base, v, k, body, stamp); }
    ManifestSame(c, base, v, k, body, stamp);
    SucceedSave(c, w, base, u, k, body, stamp);
  }

  lemma ManifestSame(c: Config, u: JobData, v: JobData, k: nat, body: seq<Artifact>, stamp: nat)
    requires u.id == v.id
    ensures ManifestArtifact(c, u, k, body, stamp) == ManifestArtifact(c, v, k, body, stamp)
  {}

  lemma AssembledPages(c: Config, w: State, v: JobData, k: nat, body: seq<Artifact>, stamp: nat)
    requires Assembled(c, w, v, k, body, stamp)
    ensures v.pages != []
  {}

  lemma SucceedOrStale(c: Config, w: State, v: JobData, base: JobData, u: JobData, k: nat, body: seq<Artifact>, stamp: nat,
                       gone: bool)
    requires Inv(c, w) && Sound(c, w, v) && Assembled(c, w, v, k, body, stamp) && base.id == v.id
    requires if gone then Stale(w, base) else Sound(c, w, base) && (c.solo && Held(c, w, v) ==> SameButCancel(base, v))
    requires base.state == Assembling && base.pages != [] && AllSucceeded(base.pages) && Owned(v.state)
    requires u == base.(state := JobState.Succeeded, code := 0, reason := "",
                        artifacts := SetOf(body + [ManifestArtifact(c, v, k, body, stamp)]))
    ensures CanSave(c, w, u, Action.Succeed(k, body, stamp))
    ensures KindOf(Entry(Action.Succeed(k, body, stamp), u)) == JobSucceeded
  {
    hide Inv, Held, Seen, CanSave, Assembled, SameButCancel, AllSucceeded, Numbered, Stale;
    if gone {
      StaleChanged(w, base, u);
      StaleSave(c, w, u, Action.Succeed(k, body, stamp));
    } else {
      SucceedReady(c, w, v, base, u, k, body, stamp);
    }
  }
}
