/**
 * Node resolution (simple-test.ts:548-565): the render engine answers a
 * selector with one DebugElement or null (`query`) or with an array of them
 * (`queryAll`), and the answer becomes the façade's current context `el`.
 */
module Resolver {
  import opened Options
  import opened JsValues
  import opened Lodash

  /** The properties of a DebugElement, `nativeElement` among them. */
  type Node = map<string, Value>

  /** What a query found: one element (`query`) or a possibly empty array (`queryAll`). */
  datatype QueryResult = One(node: Node) | All(nodes: seq<Node>)

  /**
   * The façade's field `el`. `None` is both its initial `undefined` and the
   * `null` of a single query that matched nothing: the source tests only its
   * truthiness, and a found element or an array (even an empty one) is truthy.
   */
  type Context = Option<QueryResult>

  /** What a `getBy…` call returns: the façade itself, for chaining, or looked-up data. */
  datatype Reply = Facade | Data(value: Value)

  /** The query result as the JavaScript value `el` holds. */
  function AsValue(r: QueryResult): Value
  {
    match r
    case One(node) => Obj(node)
    case All(nodes) => Arr(seq(|nodes|, k requires 0 <= k < |nodes| => Obj(nodes[k])))
  }

  /**
   * `this.el = this.de[isSingle ? 'query' : 'queryAll'](By.css(selector))` against
   * the tree of render generation `generation`. The previous context plays no part.
   */
  function Resolve(
    queryOne: (nat, string) -> Option<Node>,
    queryAll: (nat, string) -> seq<Node>,
    generation: nat, selector: string, isSingle: bool): (ctx: Context)
    ensures isSingle ==> (ctx.None? <==> queryOne(generation, selector).None?)
    ensures isSingle && ctx.Some? ==> ctx.value == One(queryOne(generation, selector).value)
    ensures !isSingle ==> ctx == Some(All(queryAll(generation, selector)))
  {
    if isSingle then
      match queryOne(generation, selector)
      case None => None
      case Some(node) => Some(One(node))
    else Some(All(queryAll(generation, selector)))
  }

  /**
   * `domElement && neededData && isString(neededData) ? get(domElement, neededData) : this`:
   * data is returned exactly when something was found and `neededData` is a
   * non-empty string, which is then the lodash path looked up.
   */
  function DomReply(ctx: Context, neededData: Value): (r: Reply)
    ensures r.Data? <==> ctx.Some? && neededData.Str? && neededData.s != ""
    ensures r.Data? ==> r.value == Get(AsValue(ctx.value), neededData.s)
  {
    if ctx.Some? && Truthy(neededData) && neededData.Str? then Data(Get(AsValue(ctx.value), neededData.s))
    else Facade
  }

  /**
   * `neededData ? domElement : this` in each `getBy…` method: the extra test
   * changes nothing, the method returns what the resolution returned.
   */
  lemma OuterTestIsRedundant(ctx: Context, neededData: Value)
    ensures (if Truthy(neededData) then DomReply(ctx, neededData) else Facade) == DomReply(ctx, neededData)
  {
  }
}
