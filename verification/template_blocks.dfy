/**
  Block inheritance of `django/template/loader_tags.py`. A `BlockContext`
  maps each block name to a queue of block nodes; `{% extends %}` inserts
  the blocks of each template at the front of the queues, child first, and
  `BlockNode.render` pops the most derived block, renders it and pushes it
  back. Rendering is modelled on a tree of text, block tags and
  `{{ block.super }}` references.
 */
module TemplateBlocks {
  import opened Common

  datatype Node = Text(text: string) | BlockTag(block: Block) | BlockSuper
  datatype Block = Block(name: string, body: seq<Node>)

  /**
    `BlockContext.blocks`, a `defaultdict(list)`: a missing name behaves as
    an empty queue, so every property is stated through `Queue`.
   */
  type BlockContext = map<string, seq<Block>>

  function Queue(ctx: BlockContext, name: string): seq<Block> {
    if name in ctx then ctx[name] else []
  }

  /** `BlockContext.add_blocks`: each given block goes to the front of its queue. */
  function AddBlocks(ctx: BlockContext, blocks: map<string, Block>): (r: BlockContext)
    ensures forall n :: Queue(r, n) == (if n in blocks then [blocks[n]] + Queue(ctx, n) else Queue(ctx, n))
  {
    map n | n in ctx.Keys + blocks.Keys :: if n in blocks then [blocks[n]] + Queue(ctx, n) else ctx[n]
  }

  datatype Popped = Popped(ctx: BlockContext, block: Option<Block>)

  /** `BlockContext.pop`: remove and return the last block, or `None`. */
  function Pop(ctx: BlockContext, name: string): (r: Popped)
    ensures Queue(ctx, name) == [] ==> r.block.None? && r.ctx == ctx
    ensures Queue(ctx, name) != [] ==> var q := Queue(ctx, name);
      r.block == Some(q[|q| - 1]) && Queue(r.ctx, name) == q[..|q| - 1]
    ensures forall n :: n != name ==> Queue(r.ctx, n) == Queue(ctx, n)
  {
    var q := Queue(ctx, name);
    if q == [] then Popped(ctx, None) else Popped(ctx[name := q[..|q| - 1]], Some(q[|q| - 1]))
  }

  /** `BlockContext.push`: append to the named queue. */
  function Push(ctx: BlockContext, name: string, b: Block): (r: BlockContext)
    ensures Queue(r, name) == Queue(ctx, name) + [b]
    ensures forall n :: n != name ==> Queue(r, n) == Queue(ctx, n)
  {
    ctx[name := Queue(ctx, name) + [b]]
  }

  /** `BlockContext.get_block`: the block `pop` would return, without removing it. */
  function GetBlock(ctx: BlockContext, name: string): (r: Option<Block>)
    ensures r == Pop(ctx, name).block
    ensures r.None? <==> Queue(ctx, name) == []
  {
    var q := Queue(ctx, name);
    if q == [] then None else Some(q[|q| - 1])
  }

  /** A pushed block is the next one popped, and the pop restores every queue. */
  lemma PushThenPop(ctx: BlockContext, name: string, b: Block)
    ensures var p := Pop(Push(ctx, name, b), name);
      p.block == Some(b) && forall n :: Queue(p.ctx, n) == Queue(ctx, n)
  {
    var q := Queue(Push(ctx, name, b), name);
    assert q[..|q| - 1] == Queue(ctx, name);
  }

  /** Pushing back a popped block gives back exactly the context popped from. */
  lemma PopThenPush(ctx: BlockContext, name: string)
    requires Queue(ctx, name) != []
    ensures var p := Pop(ctx, name); Push(p.ctx, name, p.block.value) == ctx
  {
    var q := Queue(ctx, name);
    assert q[..|q| - 1] + [q[|q| - 1]] == q;
  }

  // The number of blocks held, the measure under which rendering terminates.

  ghost function Pick(ctx: BlockContext): string
    requires |ctx| > 0
  {
    var k :| k in ctx; k
  }

  ghost function Total(ctx: BlockContext): nat
    decreases |ctx|
  {
    if |ctx| == 0 then 0 else |ctx[Pick(ctx)]| + Total(ctx - {Pick(ctx)})
  }

  lemma {:induction false} TotalRemove(ctx: BlockContext, k: string)
    requires k in ctx
    ensures Total(ctx) == |ctx[k]| + Total(ctx - {k})
    decreases |ctx|
  {
    var j := Pick(ctx);
    if j != k {
      TotalRemove(ctx - {j}, k);
      TotalRemove(ctx - {k}, j);
      assert ctx - {j} - {k} == ctx - {k} - {j};
    }
  }

  lemma PopShrinks(ctx: BlockContext, name: string)
    requires Queue(ctx, name) != []
    ensures Total(Pop(ctx, name).ctx) == Total(ctx) - 1
  {
    var c' := Pop(ctx, name).ctx;
    TotalRemove(ctx, name);
    TotalRemove(c', name);
    assert c' - {name} == ctx - {name};
  }

  ghost function Count(ctx: Option<BlockContext>): nat {
    if ctx.Some? then Total(ctx.value) else 0
  }

  function BlockSize(b: Block): nat {
    1 + NodesSize(b.body)
  }

  function NodeSize(n: Node): nat {
    if n.BlockTag? then 1 + BlockSize(n.block) else 1
  }

  function NodesSize(ns: seq<Node>): nat {
    if |ns| == 0 then 0 else NodeSize(ns[0]) + NodesSize(ns[1..])
  }

  const MsgSuperWithoutContext: string :=
    "'BlockNode' object has no attribute 'context'. Did you use {{ block.super }} in a base template?"

  /** The rendered text or the `TemplateSyntaxError` raised, and the block context afterwards. */
  datatype Rendered = Rendered(out: Result<string, string>, ctx: Option<BlockContext>)

  /**
    `BlockNode.render`. Without a block context the block renders its own
    body. With one, the most derived block of that name is popped, rendered
    and pushed back, so a successful render leaves the context as it was.
    An exception escapes before the push-back.
   */
  function RenderBlock(ctx: Option<BlockContext>, self: Block): (r: Rendered)
    ensures r.out.Ok? ==> r.ctx == ctx
    decreases Count(ctx), BlockSize(self), 0
  {
    match ctx
    case None => RenderNodes(None, self, self.body)
    case Some(c) =>
      if Queue(c, self.name) == [] then RenderNodes(ctx, self, self.body)
      else RenderPopped(c, self.name)
  }

  /** Pop the named block, render its body, push it back. */
  function RenderPopped(c: BlockContext, name: string): (r: Rendered)
    requires Queue(c, name) != []
    ensures r.out.Ok? ==> r.ctx == Some(c)
    decreases Total(c), 0, 0
  {
    var p := Pop(c, name);
    var y := p.block.value;
    PopShrinks(c, name);
    var inner := RenderNodes(Some(p.ctx), Block(y.name, y.body), y.body);
    if inner.out.Err? then inner
    else
      PopThenPush(c, name);
      Rendered(inner.out, Some(Push(p.ctx, name, y)))
  }

  /** A node list, rendered in order inside the block `current`. */
  function RenderNodes(ctx: Option<BlockContext>, current: Block, nodes: seq<Node>): (r: Rendered)
    ensures r.out.Ok? ==> r.ctx == ctx
    decreases Count(ctx), NodesSize(nodes), 1
  {
    if |nodes| == 0 then Rendered(Ok(""), ctx)
    else
      var head := RenderNode(ctx, current, nodes[0]);
      if head.out.Err? then head
      else
        var tail := RenderNodes(head.ctx, current, nodes[1..]);
        if tail.out.Err? then tail else Rendered(Ok(head.out.value + tail.out.value), tail.ctx)
  }

  /**
    One node. `{{ block.super }}` renders the next block of the enclosing
    block's name, or nothing when there is none; outside any block context the
    block object has no `context` and the reference raises.
   */
  function RenderNode(ctx: Option<BlockContext>, current: Block, n: Node): (r: Rendered)
    ensures r.out.Ok? ==> r.ctx == ctx
    decreases Count(ctx), NodeSize(n), 0
  {
    match n
    case Text(s) => Rendered(Ok(s), ctx)
    case BlockTag(b) => RenderBlock(ctx, b)
    case BlockSuper =>
      match ctx
      case None => Rendered(Err(MsgSuperWithoutContext), ctx)
      case Some(c) =>
        if GetBlock(c, current.name).Some? then RenderPopped(c, current.name)
        else Rendered(Ok(""), ctx)
  }

  /**
    Once a block of that name is in the context, what renders does not depend
    on the body of the placeholder being rendered: the override wins.
   */
  lemma OverrideIgnoresPlaceholderBody(c: BlockContext, name: string, body1: seq<Node>, body2: seq<Node>)
    requires Queue(c, name) != []
    ensures RenderBlock(Some(c), Block(name, body1)) == RenderBlock(Some(c), Block(name, body2))
  {
  }

  /** `ExtendsNode.render` along an inheritance chain, most derived template first. */
  function AddChain(ctx: BlockContext, levels: seq<map<string, Block>>): (r: BlockContext)
    decreases |levels|
  {
    if |levels| == 0 then ctx else AddChain(AddBlocks(ctx, levels[0]), levels[1..])
  }

  /** The first node of the parent template that is not text, if any. */
  datatype ParentStart = StartsWithExtends | StartsWithOther | OnlyText

  /**
    `ExtendsNode.render`: the block context is created on first use, the
    extending template's blocks go to the front of the queues, and so do
    the parent's own blocks when the parent is the root of the chain (its
    first non-text node is not another `extends`).
   */
  function ExtendsRender(ctx: Option<BlockContext>, own: map<string, Block>,
                         start: ParentStart, parentBlocks: map<string, Block>): (r: BlockContext)
    ensures start != StartsWithOther ==> r == AddChain(ctx.GetOr(map[]), [own])
    ensures start == StartsWithOther ==> r == AddChain(ctx.GetOr(map[]), [own, parentBlocks])
  {
    var c := AddBlocks(ctx.GetOr(map[]), own);
    assert [own][1..] == [] && [own, parentBlocks][1..] == [parentBlocks] && [parentBlocks][1..] == [];
    assert AddChain(c, [parentBlocks]) == AddBlocks(c, parentBlocks);
    if start == StartsWithOther then AddBlocks(c, parentBlocks) else c
  }

  /**
    Rendering a chain of templates, most derived first: every level but the
    last extends the next, and the last is the root.
   */
  function RenderChain(ctx: Option<BlockContext>, levels: seq<map<string, Block>>): BlockContext
    requires |levels| >= 2
    decreases |levels|
  {
    if |levels| == 2 then ExtendsRender(ctx, levels[0], StartsWithOther, levels[1])
    else RenderChain(Some(ExtendsRender(ctx, levels[0], StartsWithExtends, map[])), levels[1..])
  }

  /** Rendering the chain level by level adds every level's blocks, child first. */
  lemma {:induction false} RenderChainAddsAll(c: BlockContext, levels: seq<map<string, Block>>)
    requires |levels| >= 2
    ensures RenderChain(Some(c), levels) == AddChain(c, levels)
    decreases |levels|
  {
    if |levels| == 2 {
      assert levels == [levels[0], levels[1]];
    } else {
      RenderChainAddsAll(AddBlocks(c, levels[0]), levels[1..]);
    }
  }

  /** The blocks named `n` along the chain, most derived first. */
  function Defining(levels: seq<map<string, Block>>, n: string): seq<Block> {
    if |levels| == 0 then []
    else (if n in levels[0] then [levels[0][n]] else []) + Defining(levels[1..], n)
  }

  function Reverse<T>(s: seq<T>): (r: seq<T>)
    ensures |r| == |s|
  {
    if |s| == 0 then [] else Reverse(s[1..]) + [s[0]]
  }

  /** After the chain is added, each queue holds the chain's blocks base first. */
  lemma {:induction false} AddChainQueues(ctx: BlockContext, levels: seq<map<string, Block>>, n: string)
    ensures Queue(AddChain(ctx, levels), n) == Reverse(Defining(levels, n)) + Queue(ctx, n)
    decreases |levels|
  {
    if |levels| > 0 {
      var pre := if n in levels[0] then [levels[0][n]] else [];
      var rest := Defining(levels[1..], n);
      AddChainQueues(AddBlocks(ctx, levels[0]), levels[1..], n);
      assert Defining(levels, n) == pre + rest;
      if pre != [] {
        assert (pre + rest)[1..] == rest;
      } else {
        assert pre + rest == rest;
      }
    }
  }

  /**
    Starting from an empty context, the first pop of a name returns the most
    derived template's block, and what remains for `{{ block.super }}` is the
    rest of the chain.
   */
  lemma ChildBlockPoppedFirst(levels: seq<map<string, Block>>, n: string)
    requires Defining(levels, n) != []
    ensures var d := Defining(levels, n); var p := Pop(AddChain(map[], levels), n);
      p.block == Some(d[0]) && Queue(p.ctx, n) == Reverse(d[1..])
  {
    var d := Defining(levels, n);
    AddChainQueues(map[], levels, n);
    assert Queue(AddChain(map[], levels), n) == Reverse(d[1..]) + [d[0]];
  }
}
