/** `renderPreviews` and `defaultRender`: which nodes are built from `_result`, and where they go. */
module Render {
  import opened PreviewTypes
  import opened Seqs

  /** `defaultRender(image, file)` hands the image back unchanged. */
  function DefaultRender(image: Node, file: File): Node {
    image
  }

  /** `this._config.render || this.defaultRender` */
  function RendererOf(config: Config): (Node, File) -> Node {
    match config.render
    case Some(render) => render
    case None => DefaultRender
  }

  /** An entry that destructures and whose `image` is truthy. */
  predicate HasImage(e: Entry) {
    e.Artifact? && e.image.Some?
  }

  /** The node `render(image, file)` builds for an entry with an image. */
  function Draw(e: Entry, render: (Node, File) -> Node): Node
    requires HasImage(e)
  {
    render(e.image.value, e.file)
  }

  /**
   * The `forEach` over `_result`: destructuring an `undefined` slot throws a `TypeError`;
   * otherwise the fragment gets one rendered node per entry with a truthy image.
   */
  function Fragment(entries: seq<Entry>, render: (Node, File) -> Node): (r: Result<seq<Node>, Reason>)
    ensures r.Ok? <==> forall i :: 0 <= i < |entries| ==> !entries[i].Undefined?
    ensures r.Err? ==> r.error == TypeError
    ensures r.Ok? ==> |r.value| <= |entries|
  {
    if entries == [] then Ok([])
    else
      match Fragment(entries[..|entries| - 1], render)
      case Err(e) => Err(e)
      case Ok(nodes) =>
        var last := entries[|entries| - 1];
        if last.Undefined? then Err(TypeError)
        else if last.image.Some? then Ok(nodes + [render(last.image.value, last.file)])
        else Ok(nodes)
  }

  /** The fragment is exactly the rendered entries that have an image, in `_result` order. */
  lemma {:induction false} FragmentSelectsImages(entries: seq<Entry>, render: (Node, File) -> Node)
    requires forall i :: 0 <= i < |entries| ==> !entries[i].Undefined?
    ensures var kept, r := Filter(entries, HasImage), Fragment(entries, render);
      && r.Ok?
      && |r.value| == |kept|
      && forall j :: 0 <= j < |kept| ==> r.value[j] == Draw(kept[j], render)
  {
    if entries != [] {
      var init, last := entries[..|entries| - 1], entries[|entries| - 1];
      FragmentSelectsImages(init, render);
      if HasImage(last) {
        assert Filter(entries, HasImage) == Filter(init, HasImage) + [last];
      }
    }
  }

  /** Without a configured `render`, the fragment is the images themselves, in `_result` order. */
  lemma DefaultRenderShowsImages(config: Config, entries: seq<Entry>)
    requires config.render.None?
    requires forall i :: 0 <= i < |entries| ==> !entries[i].Undefined?
    ensures var kept, r := Filter(entries, HasImage), Fragment(entries, RendererOf(config));
      && r.Ok?
      && |r.value| == |kept|
      && forall j :: 0 <= j < |kept| ==> r.value[j] == kept[j].image.value
  {
  }

  /** Lines 56-61: build the fragment by walking the entries in order. */
  method BuildFragment(entries: seq<Entry>, render: (Node, File) -> Node) returns (r: Result<seq<Node>, Reason>)
    ensures r == Fragment(entries, render)
  {
    var fragment := [];
    var i := 0;
    while i < |entries|
      invariant 0 <= i <= |entries|
      invariant Fragment(entries[..i], render) == Ok(fragment)
    {
      var entry := entries[i];
      if entry.Undefined? {
        return Err(TypeError);
      }
      if entry.image.Some? {
        fragment := fragment + [render(entry.image.value, entry.file)];
      }
      assert entries[..i + 1][..i] == entries[..i];
      i := i + 1;
    }
    assert entries[..i] == entries;
    return Ok(fragment);
  }

  /** The document, as far as `querySelector` and the target's children go. */
  class Document {
    /** The children of the element `document.querySelector(selector)` finds, for each selector that finds one. */
    var targets: map<string, seq<Node>>
  }

  /** How a call to `renderPreviews` settles and what the document's targets are afterwards. */
  datatype Effect = Effect(settled: Settled, targets: map<string, seq<Node>>)

  /**
   * `renderPreviews` on `this._result`: it throws when `_result` is undefined or holds an
   * undefined slot, and leaves the document as it was; otherwise the target found by
   * `container` gets the fragment as its only children, and a missing target changes nothing.
   */
  function RenderEffect(targets: map<string, seq<Node>>, container: string, result: Option<seq<Entry>>,
                        render: (Node, File) -> Node): (effect: Effect)
    ensures effect.settled.Rejected? ==> effect.settled.reason == TypeError && effect.targets == targets
    ensures effect.targets.Keys == targets.Keys
    ensures forall s :: s in targets && s != container ==> effect.targets[s] == targets[s]
    ensures effect.settled == Fulfilled <==> result.Some? && Fragment(result.value, render).Ok?
    ensures effect.settled == Fulfilled && container in targets ==> effect.targets[container] == Fragment(result.value, render).value
  {
    if result.None? then Effect(Rejected(TypeError), targets)
    else
      match Fragment(result.value, render)
      case Err(e) => Effect(Rejected(e), targets)
      case Ok(nodes) => Effect(Fulfilled, if container in targets then targets[container := nodes] else targets)
  }
}
