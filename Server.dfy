/**
 * XmlRpcServerImpl: the server object that fills its logging handler
 * mapping from the declared handler beans at construction time and then
 * forwards addHandler/removeHandler to it.
 */
module Server {
  import opened Registry
  import opened HandlerMapping

  /** What instantiating a declared handler class gave. */
  datatype Instantiation = Instance(handler: HandlerObject) | ClassNotFound

  /** A declared handler extension: its registration name and its instantiation. */
  datatype HandlerBean = HandlerBean(name: string, instantiation: Instantiation)

  /** The table after handling one bean: a loaded handler is added, a missing class adds nothing. */
  function Register(t: Table, bean: HandlerBean): (r: Table)
    ensures r.Keys == if bean.instantiation.Instance? then t.Keys + {bean.name} else t.Keys
    ensures bean.instantiation.Instance? ==> r[bean.name] == Wrap(bean.instantiation.handler)
    ensures forall k :: k in t && k != bean.name ==> r[k] == t[k]
    ensures bean.instantiation.ClassNotFound? ==> r == t
  {
    match bean.instantiation
    case Instance(h) => Put(t, bean.name, h)
    case ClassNotFound => t
  }

  /** The table after the constructor has gone through `beans` in order. */
  function Registered(beans: seq<HandlerBean>): (t: Table)
  {
    if |beans| == 0 then map[]
    else Register(Registered(beans[..|beans| - 1]), beans[|beans| - 1])
  }

  /** The log the logging mapping has written after the constructor's loop. */
  function RegistrationLog(beans: seq<HandlerBean>): (records: seq<LogRecord>)
  {
    if |beans| == 0 then []
    else
      var prefix := beans[..|beans| - 1];
      var bean := beans[|beans| - 1];
      match bean.instantiation
      case Instance(h) =>
        RegistrationLog(prefix) + [LogRecord(Info, AddHandlerCalled(bean.name, h), Registered(prefix))]
      case ClassNotFound => RegistrationLog(prefix)
  }

  /** True when bean `i` loaded a handler under `name`. */
  predicate LoadsUnder(beans: seq<HandlerBean>, i: int, name: string)
    requires 0 <= i < |beans|
  {
    beans[i].instantiation.Instance? && beans[i].name == name
  }

  /** The names under which some bean loaded a handler. */
  function LoadedNames(beans: seq<HandlerBean>): (names: set<string>)
  {
    set i | 0 <= i < |beans| && beans[i].instantiation.Instance? :: beans[i].name
  }

  /** Exactly the names of beans that loaded end up registered. */
  lemma {:induction false} RegisteredKeys(beans: seq<HandlerBean>)
    ensures Registered(beans).Keys == LoadedNames(beans)
  {
    if |beans| > 0 {
      var prefix := beans[..|beans| - 1];
      RegisteredKeys(prefix);
      assert forall i :: 0 <= i < |prefix| ==> prefix[i] == beans[i];
      var last := |beans| - 1;
      if beans[last].instantiation.Instance? {
        assert LoadedNames(beans) == LoadedNames(prefix) + {beans[last].name};
      } else {
        assert LoadedNames(beans) == LoadedNames(prefix);
      }
    }
  }

  /** The last bean that loads under a name decides its entry. */
  lemma {:induction false} RegisteredLastWins(beans: seq<HandlerBean>, i: int)
    requires 0 <= i < |beans| && beans[i].instantiation.Instance?
    requires forall j :: i < j < |beans| ==> !LoadsUnder(beans, j, beans[i].name)
    ensures beans[i].name in Registered(beans)
    ensures Registered(beans)[beans[i].name] == Wrap(beans[i].instantiation.handler)
  {
    var prefix := beans[..|beans| - 1];
    if i < |beans| - 1 {
      assert beans[i] == prefix[i];
      forall j | i < j < |prefix| ensures !LoadsUnder(prefix, j, prefix[i].name) {
        assert prefix[j] == beans[j];
        assert !LoadsUnder(beans, j, beans[i].name);
      }
      RegisteredLastWins(prefix, i);
      assert !LoadsUnder(beans, |beans| - 1, beans[i].name);
    }
  }

  /** Every registered entry comes from the last bean that loaded under that name. */
  lemma {:induction false} RegisteredEntryOrigin(beans: seq<HandlerBean>, name: string) returns (i: int)
    requires name in Registered(beans)
    ensures 0 <= i < |beans| && LoadsUnder(beans, i, name)
    ensures Registered(beans)[name] == Wrap(beans[i].instantiation.handler)
    ensures forall j :: i < j < |beans| ==> !LoadsUnder(beans, j, name)
  {
    var last := |beans| - 1;
    var prefix := beans[..last];
    if LoadsUnder(beans, last, name) {
      i := last;
    } else {
      i := RegisteredEntryOrigin(prefix, name);
      assert beans[i] == prefix[i];
      forall j | i < j < |beans| ensures !LoadsUnder(beans, j, name) {
        if j < last {
          assert beans[j] == prefix[j];
          assert !LoadsUnder(prefix, j, name);
        }
      }
    }
  }

  /**
   * A bean whose class is missing changes nothing: the beans before and
   * after it register exactly as if it were not there.
   */
  lemma {:induction false} RegisteredSkipsMissingClass(pre: seq<HandlerBean>, name: string, post: seq<HandlerBean>)
    ensures Registered(pre + [HandlerBean(name, ClassNotFound)] + post) == Registered(pre + post)
  {
    var withMissing := pre + [HandlerBean(name, ClassNotFound)] + post;
    if |post| == 0 {
      assert withMissing[..|withMissing| - 1] == pre;
      assert pre + post == pre;
    } else {
      var postPrefix := post[..|post| - 1];
      RegisteredSkipsMissingClass(pre, name, postPrefix);
      assert withMissing[..|withMissing| - 1] == pre + [HandlerBean(name, ClassNotFound)] + postPrefix;
      assert (pre + post)[..|pre + post| - 1] == pre + postPrefix;
    }
  }

  /**
   * After construction, a call `n.m` on a name loaded by some bean reaches
   * the handler of the last bean that loaded under `n`.
   */
  lemma ConstructedLookup(beans: seq<HandlerBean>, i: int, m: string)
    requires 0 <= i < |beans| && beans[i].instantiation.Instance?
    requires forall j :: i < j < |beans| ==> !LoadsUnder(beans, j, beans[i].name)
    requires '.' !in m
    ensures Lookup(Registered(beans), beans[i].name + "." + m) == Ok(Wrap(beans[i].instantiation.handler))
  {
    RegisteredLastWins(beans, i);
    LookupQualified(Registered(beans), beans[i].name, m);
  }

  /** The server: its handler mapping is the logging one. */
  class XmlRpcServerImpl {
    const handlerMapping: LoggingDefaultHandlerMapping

    /** Registers every bean in order; a bean whose class is missing is skipped. */
    constructor (beans: seq<HandlerBean>)
      ensures fresh(handlerMapping) && fresh(handlerMapping.base)
      ensures handlerMapping.base.handlers == Registered(beans)
      ensures handlerMapping.log == RegistrationLog(beans)
    {
      handlerMapping := new LoggingDefaultHandlerMapping();
      new;
      var i := 0;
      while i < |beans|
        invariant 0 <= i <= |beans|
        invariant handlerMapping.base.handlers == Registered(beans[..i])
        invariant handlerMapping.log == RegistrationLog(beans[..i])
      {
        assert beans[..i + 1][..i] == beans[..i];
        if beans[i].instantiation.Instance? {
          handlerMapping.AddHandler(beans[i].name, beans[i].instantiation.handler);
        }
        i := i + 1;
      }
      assert beans[..|beans|] == beans;
    }

    method AddHandler(name: string, handler: HandlerObject)
      modifies handlerMapping, handlerMapping.base
      ensures handlerMapping.base.handlers == Put(old(handlerMapping.base.handlers), name, handler)
      ensures handlerMapping.log == old(handlerMapping.log) + [LogRecord(Info, AddHandlerCalled(name, handler), old(handlerMapping.base.handlers))]
    {
      handlerMapping.AddHandler(name, handler);
    }

    method RemoveHandler(name: string)
      modifies handlerMapping, handlerMapping.base
      ensures handlerMapping.base.handlers == Without(old(handlerMapping.base.handlers), name)
      ensures handlerMapping.log == old(handlerMapping.log) + [LogRecord(Debug, RemoveHandlerCalled(name), old(handlerMapping.base.handlers))]
    {
      handlerMapping.RemoveHandler(name);
    }
  }
}
