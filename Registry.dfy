/**
 * The value-level core of the XML-RPC handler mapping: what a handler table
 * holds, how adding and removing change it, and how a remote method name is
 * resolved to a handler (splitting at the last dot) or to one of two errors.
 */
module Registry {

  /** The outcome of an operation that the source ends by throwing. */
  datatype Result<T, E> = Ok(value: T) | Err(error: E)

  /**
   * A handler object handed to the mapping.  Only one thing about it matters
   * here: whether it already implements the RPC library's XmlRpcHandler
   * interface.  `id` stands for the object's identity.
   */
  datatype HandlerObject = HandlerObject(id: nat, isXmlRpcHandler: bool)

  /**
   * What the table stores under a name: the object itself (it is an
   * XmlRpcHandler), or a reflective Invoker wrapping a plain object.
   */
  datatype Entry = Native(handler: HandlerObject) | Invoker(target: HandlerObject)
  {
    /** The object the entry was made from. */
    function Object(): HandlerObject {
      match this
      case Native(h) => h
      case Invoker(h) => h
    }
  }

  /** The handler table: handler name to entry. */
  type Table = map<string, Entry>

  /** The two failures of getHandler. */
  datatype NotFound =
    | NotFoundNamed(handlerName: string)    // the method name had a dot; its prefix is not registered
    | NotFoundForMethod(methodName: string) // the method name had no dot at all

  /** The entry addHandler stores for `handler`. */
  function Wrap(handler: HandlerObject): (e: Entry)
    ensures e.Native? <==> handler.isXmlRpcHandler
    ensures e.Object() == handler
  {
    if handler.isXmlRpcHandler then Native(handler) else Invoker(handler)
  }

  /** The table after addHandler(name, handler): insert or replace. */
  function Put(t: Table, name: string, handler: HandlerObject): (r: Table)
    ensures name in r && r[name] == Wrap(handler)
    ensures r.Keys == t.Keys + {name}
    ensures forall k :: k in t && k != name ==> r[k] == t[k]
  {
    t[name := Wrap(handler)]
  }

  /** The table after removeHandler(name): that key gone, no error if absent. */
  function Without(t: Table, name: string): (r: Table)
    ensures r.Keys == t.Keys - {name}
    ensures forall k :: k in r ==> r[k] == t[k]
    ensures name !in t ==> r == t
  {
    t - {name}
  }

  /**
   * String.lastIndexOf for one character: the index of the last occurrence
   * of `c` in `s`, or -1 when `s` does not contain it.
   */
  function LastIndexOf(s: string, c: char): (r: int)
    ensures -1 <= r < |s|
    ensures r == -1 <==> c !in s
    ensures 0 <= r ==> s[r] == c
    ensures forall j :: r < j < |s| ==> s[j] != c
  {
    if |s| == 0 then -1
    else if s[|s| - 1] == c then |s| - 1
    else
      var k := LastIndexOf(s[..|s| - 1], c);
      assert forall j :: 0 <= j < |s| - 1 ==> s[..|s| - 1][j] == s[j];
      k
  }

  /**
   * getHandler(methodName) on table `t`: the handler name is everything
   * before the last dot.  A registered prefix yields its entry; an
   * unregistered one fails naming the prefix; a name without any dot fails
   * naming the whole method name, whatever the table holds.
   */
  function Lookup(t: Table, methodName: string): (r: Result<Entry, NotFound>)
    ensures '.' !in methodName ==> r == Err(NotFoundForMethod(methodName))
    ensures r.Ok? ==> r.value in t.Values
    ensures r.Err? ==> (r.error.NotFoundNamed? <==> '.' in methodName)
    ensures r.Err? && r.error.NotFoundNamed? ==> r.error.handlerName !in t
  {
    var dot := LastIndexOf(methodName, '.');
    if dot > -1 && methodName[..dot] in t then Ok(t[methodName[..dot]])
    else if dot > -1 then Err(NotFoundNamed(methodName[..dot]))
    else Err(NotFoundForMethod(methodName))
  }

  /** In `n + "." + m` with a dot-free `m`, the last dot is the one after `n`. */
  lemma LastDotOfQualified(s: string, n: string, m: string)
    requires s == n + "." + m && '.' !in m
    ensures LastIndexOf(s, '.') == |n|
  {
    forall j | |n| < j < |s| ensures s[j] != '.' {
      assert s[j] == m[j - |n| - 1];
    }
    assert s[|n|] == '.';
    LastIndexOfUnique(s, '.', |n|);
  }

  /** LastIndexOf is pinned down by "c at k, and no c after k". */
  lemma LastIndexOfUnique(s: string, c: char, k: int)
    requires 0 <= k < |s| && s[k] == c
    requires forall j :: k < j < |s| ==> s[j] != c
    ensures LastIndexOf(s, c) == k
  {
  }

  /**
   * For every name `n` (dots allowed) and dot-free method `m`, the call
   * `n.m` resolves exactly through the entry for `n`.
   */
  lemma LookupQualified(t: Table, n: string, m: string)
    requires '.' !in m
    ensures Lookup(t, n + "." + m) == if n in t then Ok(t[n]) else Err(NotFoundNamed(n))
  {
    var s := n + "." + m;
    LastDotOfQualified(s, n, m);
    assert s[..|n|] == n;
  }

  /**
   * A dotted method name has only one split into a handler name and a
   * dot-free method, so LookupQualified covers every dotted name.
   */
  lemma QualifiedSplitUnique(n1: string, m1: string, n2: string, m2: string)
    requires '.' !in m1 && '.' !in m2
    requires n1 + "." + m1 == n2 + "." + m2
    ensures n1 == n2 && m1 == m2
  {
    var s := n1 + "." + m1;
    LastDotOfQualified(s, n1, m1);
    LastDotOfQualified(s, n2, m2);
    assert s[..|n1|] == n1 && s[..|n2|] == n2;
    assert s[|n1| + 1..] == m1 && s[|n2| + 1..] == m2;
  }

  /** Every dotted method name is some `n + "." + m` with a dot-free `m`. */
  lemma DottedNameSplits(s: string) returns (n: string, m: string)
    requires '.' in s
    ensures s == n + "." + m && '.' !in m
  {
    var dot := LastIndexOf(s, '.');
    n, m := s[..dot], s[dot + 1..];
    assert s == s[..dot] + [s[dot]] + s[dot + 1..];
  }

  /** After addHandler(n, h), a call on `n` finds the new entry, never the old. */
  lemma LookupAfterPut(t: Table, n: string, h: HandlerObject, m: string)
    requires '.' !in m
    ensures Lookup(Put(t, n, h), n + "." + m) == Ok(Wrap(h))
    ensures n in t && t[n] != Wrap(h) ==> Lookup(Put(t, n, h), n + "." + m) != Ok(t[n])
  {
    LookupQualified(Put(t, n, h), n, m);
  }

  /** addHandler(n, h) does not change how calls on any other name resolve. */
  lemma LookupAfterPutOther(t: Table, n: string, h: HandlerObject, other: string, m: string)
    requires '.' !in m && other != n
    ensures Lookup(Put(t, n, h), other + "." + m) == Lookup(t, other + "." + m)
  {
    LookupQualified(Put(t, n, h), other, m);
    LookupQualified(t, other, m);
  }

  /** After removeHandler(n), a call on `n` fails naming `n`. */
  lemma LookupAfterRemove(t: Table, n: string, m: string)
    requires '.' !in m
    ensures Lookup(Without(t, n), n + "." + m) == Err(NotFoundNamed(n))
  {
    LookupQualified(Without(t, n), n, m);
  }

  /** The text of the exception getHandler throws, as the source builds it. */
  function Message(e: NotFound): (text: string)
    ensures |text| >= 20 && text[..19] == "RPC handler object "
    ensures e.NotFoundNamed? ==> text[19] == '"'
    ensures e.NotFoundForMethod? ==> text[19] == 'n'
    ensures e.NotFoundNamed? ==> |text| == 31 + |e.handlerName| && text[20..20 + |e.handlerName|] == e.handlerName
    ensures e.NotFoundForMethod? ==> |text| == 34 + |e.methodName| && text[34..] == e.methodName
    ensures e.NotFoundNamed? ==> text[20 + |e.handlerName|..] == "\" not found"
    ensures e.NotFoundForMethod? ==> text[19..34] == "not found for \""
  {
    match e
    case NotFoundNamed(name) => "RPC handler object \"" + name + "\" not found"
    case NotFoundForMethod(methodName) => "RPC handler object not found for \"" + methodName
  }

  /** The two failures never produce the same text ... */
  lemma MessagesDistinct(name: string, methodName: string)
    ensures Message(NotFoundNamed(name)) != Message(NotFoundForMethod(methodName))
  {
    assert Message(NotFoundNamed(name))[19] != Message(NotFoundForMethod(methodName))[19];
  }

  /** ... and each text determines the name it carries. */
  lemma MessageDeterminesName(e1: NotFound, e2: NotFound)
    requires Message(e1) == Message(e2)
    ensures e1 == e2
  {
  }
}
