/**
 * The command-line widget and its builder: a root container with two
 * children, the indicator (the `:` in front of an ex command) and the
 * content (the text of the command line), laid out in integer rectangles.
 */
module CommandLineWidget {
  import opened Numeric
  import opened Geo
  import opened Common

  /** The symbol the indicator shows. */
  datatype IndicatorSymbol = Empty | Ex

  /**
   * A weak handle on the shared text contents (`TextContentsWk`): either one
   * that was never attached (`TextContentsWk::new()`), or a handle on the
   * contents with the given identity.
   */
  datatype ContentsHandle = Dangling | Handle(id: nat)

  /** The window-local options a command line uses. */
  datatype WindowLocalOptions = WindowLocalOptions(wrap: bool, lineBreak: bool, scrollOff: u16)

  /** The arguments the content's viewport is computed from (`Viewport::view`). */
  datatype ViewRequest = ViewRequest(options: WindowLocalOptions, actualShape: U16Rect, startLineIdx: nat, startColumnIdx: nat)

  datatype NodeKind =
    | RootContainer
    | Indicator(symbol: IndicatorSymbol)
    | Content(contents: ContentsHandle)

  /** A widget node: its id, its shape relative to its parent, and what it is. */
  datatype Node = Node(id: nat, shape: IRect, kind: NodeKind)

  /** The widget tree of a command line: nodes by id, and each node's children in insertion order. */
  class Itree {
    const rootId: nat
    var nodes: map<nat, Node>
    var children: map<nat, seq<nat>>

    /** Every node is stored under its own id, has a child list, and every child is a node. */
    predicate Valid()
      reads this
    {
      && rootId in nodes
      && nodes.Keys == children.Keys
      && (forall id :: id in nodes ==> nodes[id].id == id)
      && (forall p :: p in children ==> forall i :: 0 <= i < |children[p]| ==> children[p][i] in nodes)
    }

    /** `Itree::new(root)`: a tree holding the root alone. */
    constructor(root: Node)
      ensures Valid()
      ensures rootId == root.id && nodes == map[root.id := root] && children == map[root.id := []]
    {
      rootId := root.id;
      nodes := map[root.id := root];
      children := map[root.id := []];
    }

    /** `bounded_insert(parent, node)`: `node` becomes the last child of `parent`. */
    method BoundedInsert(parentId: nat, node: Node)
      requires Valid() && parentId in nodes && node.id !in nodes
      modifies this
      ensures Valid()
      ensures nodes == old(nodes)[node.id := node]
      ensures children == old(children)[parentId := old(children[parentId]) + [node.id]][node.id := []]
    {
      children := children[parentId := children[parentId] + [node.id]][node.id := []];
      nodes := nodes[node.id := node];
    }
  }

  /** A built command line (`CommandLine`). */
  datatype CommandLine = CommandLine(
    base: Itree,
    options: WindowLocalOptions,
    indicatorId: nat,
    contentId: nat,
    cursorId: Option<nat>,
    textContents: ContentsHandle,
    view: ViewRequest)

  /** The options every command line is built with: no wrapping, no line breaking, no scroll-off. */
  const COMMAND_LINE_OPTIONS := WindowLocalOptions(false, false, 0)

  /** The indicator's rectangle: from the shape's top-left corner straight down to its bottom row. */
  function IndicatorShape(shape: IRect): IRect
  {
    NewIRect(shape.min, IPos(shape.min.x, shape.max.y))
  }

  /** The columns the content is shifted right by to leave room for the indicator symbol. */
  function ContentOffset(symbol: IndicatorSymbol): (r: nat)
    ensures r == 0 <==> symbol == Empty
    ensures r <= 1
  {
    if symbol == Empty then 0 else 1
  }

  /** The content's rectangle: the shape, less `ContentOffset(symbol)` columns on the left. */
  function ContentShape(shape: IRect, symbol: IndicatorSymbol): IRect
  {
    NewIRect(IPos(shape.min.x + ContentOffset(symbol), shape.min.y), shape.max)
  }

  /**
   * For a shape with its corners in order, the indicator is a zero-width
   * column at the shape's left edge spanning all its rows, and the content
   * spans the same rows, ends at the shape's bottom-right corner and starts
   * `ContentOffset(symbol)` columns in; when the shape is at least that wide,
   * the content lies inside the shape and is that much narrower.
   */
  lemma ShapeLayout(shape: IRect, symbol: IndicatorSymbol)
    requires shape.min.x <= shape.max.x && shape.min.y <= shape.max.y
    ensures var indicator := IndicatorShape(shape);
      && indicator.min == shape.min && indicator.max == IPos(shape.min.x, shape.max.y)
      && IWidth(indicator) == 0 && IHeight(indicator) == IHeight(shape)
    ensures var content := ContentShape(shape, symbol);
      ContentOffset(symbol) <= IWidth(shape) ==>
        && content.min == IPos(shape.min.x + ContentOffset(symbol), shape.min.y) && content.max == shape.max
        && IWidth(content) == IWidth(shape) - ContentOffset(symbol) && IHeight(content) == IHeight(shape)
  {
  }

  /**
   * A zero-width shape with the `Ex` symbol is the one case where the content
   * leaves the shape: the corners are re-ordered and the content takes the
   * column just right of the shape.
   */
  lemma ExContentOutsideZeroWidthShape(shape: IRect)
    requires shape.min.x == shape.max.x && shape.min.y <= shape.max.y
    ensures ContentShape(shape, Ex) == IRect(shape.min, IPos(shape.max.x + 1, shape.max.y))
    ensures IWidth(ContentShape(shape, Ex)) == 1 && ContentShape(shape, Empty) == shape
  {
  }

  /** Builds a command line from a shape, the text contents and the indicator symbol. */
  class CommandLineBuilder {
    var shape: IRect
    var textContents: ContentsHandle
    var indicatorSymbol: IndicatorSymbol

    /** `CommandLineBuilder::default()`: shape (0,0)-(1,1), no text contents, symbol `Empty`. */
    constructor()
      ensures shape == IRect(IPos(0, 0), IPos(1, 1))
      ensures textContents == Dangling && indicatorSymbol == Empty
    {
      shape := NewIRect(IPos(0, 0), IPos(1, 1));
      textContents := Dangling;
      indicatorSymbol := Empty;
    }

    method WithShape(shape: IRect)
      modifies this
      ensures this.shape == shape
      ensures textContents == old(textContents) && indicatorSymbol == old(indicatorSymbol)
    {
      this.shape := shape;
    }

    method WithTextContents(textContents: ContentsHandle)
      modifies this
      ensures this.textContents == textContents
      ensures shape == old(shape) && indicatorSymbol == old(indicatorSymbol)
    {
      this.textContents := textContents;
    }

    method WithIndicatorSymbol(indicatorSymbol: IndicatorSymbol)
      modifies this
      ensures this.indicatorSymbol == indicatorSymbol
      ensures shape == old(shape) && textContents == old(textContents)
    {
      this.indicatorSymbol := indicatorSymbol;
    }

    /**
     * `build`: a root with the builder's shape and two children, the
     * indicator (always showing `Empty`) then the content; no cursor. The ids
     * are those the widget constructors allocate, passed in here; the text
     * contents must be attached, as the handle is upgraded and unwrapped.
     */
    method Build(rootId: nat, indicatorId: nat, contentId: nat) returns (cmdline: CommandLine)
      requires rootId != indicatorId && rootId != contentId && indicatorId != contentId
      requires textContents.Handle?
      ensures fresh(cmdline.base) && cmdline.base.Valid() && cmdline.base.rootId == rootId
      ensures cmdline.base.nodes == map[
        rootId := Node(rootId, shape, RootContainer),
        indicatorId := Node(indicatorId, IndicatorShape(shape), Indicator(Empty)),
        contentId := Node(contentId, ContentShape(shape, indicatorSymbol), Content(textContents))]
      ensures cmdline.base.children == map[rootId := [indicatorId, contentId], indicatorId := [], contentId := []]
      ensures cmdline.options == COMMAND_LINE_OPTIONS
      ensures cmdline.indicatorId == indicatorId && cmdline.contentId == contentId
      ensures cmdline.cursorId == None && cmdline.textContents == textContents
      ensures cmdline.view == ViewRequest(COMMAND_LINE_OPTIONS, AsU16Rect(ContentShape(shape, indicatorSymbol)), 0, 0)
    {
      var options := WindowLocalOptions(false, false, 0);
      var base := new Itree(Node(rootId, shape, RootContainer));

      base.BoundedInsert(rootId, Node(indicatorId, IndicatorShape(shape), Indicator(Empty)));
      assert [] + [indicatorId] == [indicatorId];

      var contentShape := ContentShape(shape, indicatorSymbol);
      var view := ViewRequest(options, AsU16Rect(contentShape), 0, 0);

      base.BoundedInsert(rootId, Node(contentId, contentShape, Content(textContents)));
      assert [indicatorId] + [contentId] == [indicatorId, contentId];

      cmdline := CommandLine(base, options, indicatorId, contentId, None, textContents, view);
    }
  }
}
