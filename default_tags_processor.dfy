/**
 * `DefaultTagsTraceProcessor`: a trace processor that, when a span (an `Activity`) starts,
 * appends a fixed list of tags to it if a predicate selects the span; by default the predicate
 * selects root spans.
 */
module DefaultTagsProcessor {
  import opened Wrappers

  /** `ActivityKind`. */
  datatype ActivityKind = Internal | Server | Client | Producer | Consumer

  /** A tag: its key and its value, a possibly null object given by its text. */
  type Tag = (string, Option<string>)

  /** What a predicate can observe of a span when it starts. */
  datatype ActivityView = ActivityView(hasParent: bool, kind: ActivityKind, tags: seq<Tag>)

  /** A span: its parent and kind are fixed when it starts, its tags grow. */
  class Activity {
    const parent: Activity?
    const kind: ActivityKind
    var tags: seq<Tag>

    constructor (parent: Activity?, kind: ActivityKind)
      ensures this.parent == parent && this.kind == kind && tags == []
    {
      this.parent := parent;
      this.kind := kind;
      tags := [];
    }

    function View(): ActivityView
      reads this
    {
      ActivityView(parent != null, kind, tags)
    }

    /** `Activity.AddTag`: appends the tag, even when the key is already present. */
    method AddTag(key: string, value: Option<string>)
      modifies this
      ensures tags == old(tags) + [(key, value)]
    {
      tags := tags + [(key, value)];
    }
  }

  /** The default predicate: the span has no parent. */
  predicate IsRootActivity(activity: ActivityView) {
    !activity.hasParent
  }

  /** A span is a root for the default predicate exactly when it was started without a parent. */
  lemma RootActivityHasNoParent(a: Activity)
    ensures IsRootActivity(a.View()) <==> a.parent == null
  {
  }

  class DefaultTagsTraceProcessor {
    const defaultTags: seq<Tag>
    const shouldAdd: ActivityView -> bool

    /** A missing predicate means "root spans only". */
    constructor (defaultTags: seq<Tag>, shouldAdd: Option<ActivityView -> bool>)
      ensures this.defaultTags == defaultTags
      ensures shouldAdd.Some? ==> forall a :: this.shouldAdd(a) == shouldAdd.value(a)
      ensures shouldAdd.None? ==> forall a :: this.shouldAdd(a) == IsRootActivity(a)
    {
      this.defaultTags := defaultTags;
      if shouldAdd.Some? {
        this.shouldAdd := shouldAdd.value;
      } else {
        this.shouldAdd := IsRootActivity;
      }
    }

    /**
     * `OnStart(data)`: a null span is ignored; a span the predicate rejects keeps its tags; a
     * span it selects gets every default tag appended, in list order, after the tags it had.
     * The processor itself is not changed (its fields are read-only).
     */
    method OnStart(data: Activity?)
      modifies data
      ensures data != null && shouldAdd(old(data.View())) ==> data.tags == old(data.tags) + defaultTags
      ensures data != null && !shouldAdd(old(data.View())) ==> data.tags == old(data.tags)
    {
      if data == null {
        return;
      }
      if !shouldAdd(data.View()) {
        return;
      }
      var i := 0;
      while i < |defaultTags|
        invariant 0 <= i <= |defaultTags|
        invariant data.tags == old(data.tags) + defaultTags[..i]
      {
        data.AddTag(defaultTags[i].0, defaultTags[i].1);
        assert defaultTags[..i + 1] == defaultTags[..i] + [defaultTags[i]];
        i := i + 1;
      }
      assert defaultTags[..i] == defaultTags;
    }
  }

  /**
   * With the default predicate, a root span started under the processor receives the default
   * tags and a span started as its child receives none.
   */
  method RootAndChildSpans(tags: seq<Tag>) returns (root: Activity, child: Activity)
    ensures child.parent == root
    ensures root.tags == tags && child.tags == []
  {
    var processor := new DefaultTagsTraceProcessor(tags, None);
    root := new Activity(null, Internal);
    processor.OnStart(root);
    child := new Activity(root, Internal);
    processor.OnStart(child);
  }

  /**
   * Two processors, one selecting client spans and one selecting consumer spans: each span
   * receives only the tags of the processor whose predicate matches its kind.
   */
  method SpansMatchedByKind(clientTags: seq<Tag>, consumerTags: seq<Tag>) returns (client: Activity, consumer: Activity)
    ensures client.kind == Client && consumer.kind == Consumer
    ensures client.tags == clientTags && consumer.tags == consumerTags
  {
    var forClients := new DefaultTagsTraceProcessor(clientTags, Some((a: ActivityView) => a.kind == Client));
    var forConsumers := new DefaultTagsTraceProcessor(consumerTags, Some((a: ActivityView) => a.kind == Consumer));
    client := new Activity(null, Client);
    forClients.OnStart(client);
    forConsumers.OnStart(client);
    consumer := new Activity(null, Consumer);
    forClients.OnStart(consumer);
    forConsumers.OnStart(consumer);
  }
}
