/**
 * Transaction naming for Wicket request cycles reported to the New Relic agent
 * (NewRelicRequestCycleFactory.java).
 *
 * The factory keeps an immutable package prefix. Each request cycle it creates
 * carries the per-request FIRST_TARGET flag and reports to the agent through
 * four hooks: request begin, request-target set and runtime exception. Every
 * agent call is recorded as an `Effect` appended to the cycle's `log`.
 */
module RequestCycleFactory {
  import opened Strings

  datatype Option<T> = None | Some(value: T)

  /** The factory's two final fields. `packagePrefixLength` is cached by the
      constructor and must equal the prefix length for `substring` to be safe. */
  datatype Factory = Factory(packagePrefix: string, packagePrefixLength: int)
  {
    predicate Valid()
    {
      packagePrefixLength == |packagePrefix|
    }

    /** `pageClassToPath`: strip the package prefix as raw characters when the class
        name starts with it (no check that a package boundary follows), then turn
        every '.' into '/'. */
    function PageClassToPath(className: string): (path: string)
      requires Valid()
      ensures StartsWith(className, packagePrefix) ==>
        Replace(packagePrefix, '.', '/') + path == Replace(className, '.', '/')
      ensures !StartsWith(className, packagePrefix) ==> path == Replace(className, '.', '/')
      ensures '.' !in path
    {
      if StartsWith(className, packagePrefix) then
        var nameWithoutPrefix := className[packagePrefixLength..];
        assert className == packagePrefix + nameWithoutPrefix;
        ReplaceAppend(packagePrefix, nameWithoutPrefix, '.', '/');
        ReplaceRemoves(nameWithoutPrefix, '.', '/');
        Replace(nameWithoutPrefix, '.', '/')
      else
        ReplaceRemoves(className, '.', '/');
        Replace(className, '.', '/')
    }
  }

  /** The constructor: the cached length is the prefix's length. */
  function NewFactory(packagePrefix: string): (f: Factory)
    ensures f.Valid() && f.packagePrefix == packagePrefix
  {
    Factory(packagePrefix, |packagePrefix|)
  }

  /** `IListenerInterfaceRequestTarget`: the id of the target component and the
      name of the request listener interface. */
  datatype Listener = Listener(targetId: string, interfaceName: string)

  /** `IComponentRequestTarget`: the class name of the component's page and the
      component's id. */
  datatype ComponentRef = ComponentRef(pageClass: string, componentId: string)

  /** A request target, as the capabilities (Wicket interfaces) it implements.
      Class names are the results of `Class.getName()`. Several capabilities may
      be present at once; the priority order of the checks then decides. */
  datatype RequestTarget = RequestTarget(
    bookmarkablePageClass: Option<string>,   // IBookmarkablePageRequestTarget.getPageClass()
    pageClass: Option<string>,               // IPageRequestTarget.getPage().getClass()
    listener: Option<Listener>,              // IListenerInterfaceRequestTarget
    component: Option<ComponentRef>)         // IComponentRequestTarget

  /** The branch of `onRequestTargetSet` a target falls into. */
  datatype TargetKind =
    | BookmarkablePageTarget(pageClass: string)
    | PageTarget(pageClass: string, pageListener: Option<Listener>)
    | ComponentTarget(component: ComponentRef)
    | Unrecognised

  /** The instanceof checks in their order: bookmarkable page, then page (with the
      listener refinement), then component, then anything else. */
  function Classify(t: RequestTarget): TargetKind
  {
    if t.bookmarkablePageClass.Some? then BookmarkablePageTarget(t.bookmarkablePageClass.value)
    else if t.pageClass.Some? then PageTarget(t.pageClass.value, t.listener)
    else if t.component.Some? then ComponentTarget(t.component.value)
    else Unrecognised
  }

  /** The '/'-separated path segments of a classified target's name. */
  function Segments(f: Factory, k: TargetKind): seq<string>
    requires f.Valid()
  {
    match k
    case BookmarkablePageTarget(c) => [f.PageClassToPath(c)]
    case PageTarget(c, None) => [f.PageClassToPath(c)]
    case PageTarget(c, Some(l)) => [f.PageClassToPath(c), l.targetId, l.interfaceName]
    case ComponentTarget(ref) => [f.PageClassToPath(ref.pageClass), ref.componentId]
    case Unrecognised => []
  }

  /** The transaction name given to a target, or None when the transaction is ignored. */
  function TransactionName(f: Factory, t: RequestTarget): (name: Option<string>)
    requires f.Valid()
    ensures name.None? <==> t.bookmarkablePageClass.None? && t.pageClass.None? && t.component.None?
    ensures name.Some? ==> |name.value| > 0 && name.value[0] == '/'
  {
    var k := Classify(t);
    if k.Unrecognised? then None else Some("/" + Join(Segments(f, k), "/"))
  }

  /** The calls the agent receives from the New Relic hooks. */
  datatype RuntimeError = RuntimeError(description: string)

  datatype Effect =
    | SetUserName(userName: string)
    | SetAccountName(accountName: string)
    | SetTransactionName(category: Option<string>, name: string)
    | IgnoreTransaction
    | NoticeError(error: RuntimeError)

  /** The agent call made for the first target of a request. */
  function TargetEffect(f: Factory, t: RequestTarget): Effect
    requires f.Valid()
  {
    match TransactionName(f, t)
    case None => IgnoreTransaction
    case Some(name) => SetTransactionName(None, name)
  }

  /** `NewRelicSessionSupport`: the user and account names a session may expose. */
  datatype SessionSupport = SessionSupport(userName: string, accountName: string)

  /** A Wicket session; `support` is present when it implements NewRelicSessionSupport. */
  datatype Session = Session(support: Option<SessionSupport>)

  /** The agent calls made when a request begins with the given (possibly absent) session. */
  function BeginEffects(session: Option<Session>): seq<Effect>
  {
    if session.Some? && session.value.support.Some? then
      [SetUserName(session.value.support.value.userName),
       SetAccountName(session.value.support.value.accountName)]
    else []
  }

  /** A page returned by `onRuntimeException`; only its class is of interest. */
  datatype Page = Page(className: string)

  /** A NewRelicRequestCycle. `firstTarget` is the FIRST_TARGET metadata entry,
      None until the request begins; `log` is what the agent has been told. */
  class RequestCycle {
    const factory: Factory
    var firstTarget: Option<bool>
    var log: seq<Effect>

    constructor (factory: Factory)
      requires factory.Valid()
      ensures this.factory == factory && firstTarget == None && log == []
    {
      this.factory := factory;
      firstTarget := None;
      log := [];
    }

    /** onBeginRequest: (re)arm the flag, then pass the session's names to the agent. */
    method OnBeginRequest(session: Option<Session>)
      modifies this
      ensures firstTarget == Some(true)
      ensures log == old(log) + BeginEffects(session)
    {
      firstTarget := Some(true);
      if session.Some? && session.value.support.Some? {
        var sessionInfo := session.value.support.value;
        log := log + [SetUserName(sessionInfo.userName)];
        log := log + [SetAccountName(sessionInfo.accountName)];
      }
    }

    /** onRequestTargetSet: only the first target of a request is named (or ignored);
        the flag is cleared before classification, whatever the outcome. */
    method OnRequestTargetSet(target: RequestTarget)
      requires factory.Valid()
      requires firstTarget.Some?
      modifies this
      ensures firstTarget == Some(false)
      ensures log == if old(firstTarget) == Some(true) then old(log) + [TargetEffect(factory, target)] else old(log)
    {
      if firstTarget.value {
        firstTarget := Some(false);

        var s := "/";

        if target.bookmarkablePageClass.Some? {
          s := s + factory.PageClassToPath(target.bookmarkablePageClass.value);
          BookmarkablePageName(factory, target);
        } else if target.pageClass.Some? {
          s := s + factory.PageClassToPath(target.pageClass.value);
          if target.listener.Some? {
            s := s + "/";
            s := s + target.listener.value.targetId;
            s := s + "/";
            s := s + target.listener.value.interfaceName;
          }
          PageName(factory, target);
        } else if target.component.Some? {
          s := s + factory.PageClassToPath(target.component.value.pageClass);
          s := s + "/";
          s := s + target.component.value.componentId;
          ComponentName(factory, target);
        } else {
          log := log + [IgnoreTransaction];
          return;
        }

        log := log + [SetTransactionName(None, s)];
      }
    }

    /** onRuntimeException: report the error and return no replacement page. */
    method OnRuntimeException(page: Option<Page>, e: RuntimeError) returns (replacement: Option<Page>)
      modifies this
      ensures replacement == None
      ensures log == old(log) + [NoticeError(e)]
      ensures firstTarget == old(firstTarget)
    {
      log := log + [NoticeError(e)];
      replacement := None;
    }
  }

  /** newRequestCycle: a fresh cycle bound to this factory, before its request begins. */
  method NewRequestCycle(f: Factory) returns (cycle: RequestCycle)
    requires f.Valid()
    ensures fresh(cycle)
    ensures cycle.factory == f && cycle.firstTarget == None && cycle.log == []
  {
    cycle := new RequestCycle(f);
  }

  /** A request whose target is set twice (an internal redirect): the agent hears
      the session names and then only about the first target. */
  method RequestWithRedirect(f: Factory, session: Option<Session>, first: RequestTarget, second: RequestTarget)
    returns (effects: seq<Effect>)
    requires f.Valid()
    ensures effects == BeginEffects(session) + [TargetEffect(f, first)]
  {
    var cycle := NewRequestCycle(f);
    cycle.OnBeginRequest(session);
    cycle.OnRequestTargetSet(first);
    cycle.OnRequestTargetSet(second);
    effects := cycle.log;
  }

  // Properties of pageClassToPath.

  /** The path is the class name, less its first |packagePrefix| characters when it
      starts with the prefix, with every '.' turned into '/' and every other
      character kept in place. */
  lemma PathIsSlashedRemainder(f: Factory, className: string)
    requires f.Valid()
    ensures var kept := if StartsWith(className, f.packagePrefix) then |className| - |f.packagePrefix| else |className|;
      var path := f.PageClassToPath(className);
      |path| == kept &&
      forall i :: 0 <= i < kept ==>
        path[i] == (if className[|className| - kept + i] == '.' then '/' else className[|className| - kept + i])
  {
    var path := f.PageClassToPath(className);
    if StartsWith(className, f.packagePrefix) {
      var p := |f.packagePrefix|;
      var slashed := Replace(className, '.', '/');
      assert Replace(f.packagePrefix, '.', '/') + path == slashed;
      forall i | 0 <= i < |path|
        ensures path[i] == (if className[p + i] == '.' then '/' else className[p + i])
      {
        assert path[i] == slashed[p + i];
      }
    }
  }

  /** With the prefix stripped, the path is the rest of the class name, slashed. */
  lemma PathOfPrefixedName(f: Factory, className: string, rest: string)
    requires f.Valid() && className == f.packagePrefix + rest
    ensures f.PageClassToPath(className) == Replace(rest, '.', '/')
  {
    assert StartsWith(className, f.packagePrefix);
    ReplaceAppend(f.packagePrefix, rest, '.', '/');
    var a, path := Replace(f.packagePrefix, '.', '/'), f.PageClassToPath(className);
    assert a + path == a + Replace(rest, '.', '/');
    assert path == (a + path)[|a|..];
  }

  /** A prefix without its trailing '.' leaves that dot in the stripped name, where
      it becomes a leading '/' of the path. */
  lemma PathKeepsLeadingDot(f: Factory, simpleName: string)
    requires f.Valid()
    ensures f.PageClassToPath(f.packagePrefix + "." + simpleName) == "/" + Replace(simpleName, '.', '/')
  {
    var rest := "." + simpleName;
    PathOfPrefixedName(f, f.packagePrefix + "." + simpleName, rest);
    ReplaceAppend(".", simpleName, '.', '/');
    assert Replace(".", '.', '/') == "/";
  }

  /** So the page's transaction name starts with two slashes. */
  lemma DoubleSlashWithoutTrailingDot(f: Factory, simpleName: string)
    requires f.Valid()
    ensures TransactionName(f, RequestTarget(Some(f.packagePrefix + "." + simpleName), None, None, None))
      == Some("//" + Replace(simpleName, '.', '/'))
  {
    var className := f.packagePrefix + "." + simpleName;
    BookmarkablePageName(f, RequestTarget(Some(className), None, None, None));
    PathKeepsLeadingDot(f, simpleName);
    var slashed := Replace(simpleName, '.', '/');
    assert "/" + ("/" + slashed) == "//" + slashed;
  }

  // Properties of onRequestTargetSet's naming.

  /** A bookmarkable page target is named after its page class, whatever else it is. */
  lemma BookmarkablePageName(f: Factory, t: RequestTarget)
    requires f.Valid() && t.bookmarkablePageClass.Some?
    ensures TransactionName(f, t) == Some("/" + f.PageClassToPath(t.bookmarkablePageClass.value))
  {
  }

  /** A page target that is not bookmarkable is named after its page's class, with
      the listener's target id and interface name appended when it is also a
      listener target. */
  lemma PageName(f: Factory, t: RequestTarget)
    requires f.Valid() && t.bookmarkablePageClass.None? && t.pageClass.Some?
    ensures t.listener.None? ==> TransactionName(f, t) == Some("/" + f.PageClassToPath(t.pageClass.value))
    ensures t.listener.Some? ==>
      TransactionName(f, t) == Some("/" + f.PageClassToPath(t.pageClass.value) + "/" + t.listener.value.targetId + "/" + t.listener.value.interfaceName)
  {
    var p := f.PageClassToPath(t.pageClass.value);
    if t.listener.Some? {
      var id, iface := t.listener.value.targetId, t.listener.value.interfaceName;
      JoinSmall(p, id, iface, "/");
      assert "/" + (p + "/" + id + "/" + iface) == "/" + p + "/" + id + "/" + iface;
    } else {
      JoinSmall(p, "", "", "/");
    }
  }

  /** A listener capability adds nothing to a target that is not a page target. */
  lemma ListenerNeedsPage(f: Factory, t: RequestTarget)
    requires f.Valid() && t.pageClass.None?
    ensures TransactionName(f, t) == TransactionName(f, t.(listener := None))
  {
  }

  /** A component target that is neither bookmarkable nor a page is named after its
      page's class and its own id. */
  lemma ComponentName(f: Factory, t: RequestTarget)
    requires f.Valid() && t.bookmarkablePageClass.None? && t.pageClass.None? && t.component.Some?
    ensures TransactionName(f, t) ==
      Some("/" + f.PageClassToPath(t.component.value.pageClass) + "/" + t.component.value.componentId)
  {
    var p, id := f.PageClassToPath(t.component.value.pageClass), t.component.value.componentId;
    JoinSmall(p, id, "", "/");
    assert "/" + (p + "/" + id) == "/" + p + "/" + id;
  }

  /** The first target's agent call: exactly one of IgnoreTransaction (for a target
      with no recognised capability) or SetTransactionName with no category. */
  lemma TargetEffectIgnoresOnlyUnrecognised(f: Factory, t: RequestTarget)
    requires f.Valid()
    ensures TargetEffect(f, t) == IgnoreTransaction <==>
      t.bookmarkablePageClass.None? && t.pageClass.None? && t.component.None?
    ensures TargetEffect(f, t) != IgnoreTransaction ==>
      TargetEffect(f, t).SetTransactionName? && TargetEffect(f, t).category == None &&
      Some(TargetEffect(f, t).name) == TransactionName(f, t)
  {
  }

  /** A request begun without a session offering NewRelicSessionSupport tells the
      agent nothing; otherwise it reports the user name and then the account name. */
  lemma BeginEffectsOnlyWithSupport(session: Option<Session>)
    ensures BeginEffects(session) == [] <==> session.None? || session.value.support.None?
    ensures BeginEffects(session) != [] ==>
      BeginEffects(session) == [SetUserName(session.value.support.value.userName),
                                SetAccountName(session.value.support.value.accountName)]
  {
  }

  // Names of targets whose page is a class directly in the prefix's package (its
  // simple name has no '.'). The expected name is a parameter so that the examples
  // below can supply it as a literal.

  /** A bookmarkable page prefix + simpleName is named "/" + simpleName. */
  lemma SimpleBookmarkableName(f: Factory, className: string, simpleName: string, name: string)
    requires f.Valid() && className == f.packagePrefix + simpleName && '.' !in simpleName
    requires name == "/" + simpleName
    ensures TransactionName(f, RequestTarget(Some(className), None, None, None)) == Some(name)
  {
    PathOfPrefixedName(f, className, simpleName);
    ReplaceAbsent(simpleName, '.', '/');
    BookmarkablePageName(f, RequestTarget(Some(className), None, None, None));
  }

  /** A bookmarkable page prefix + "." + simpleName is named "//" + simpleName. */
  lemma SimpleBookmarkableNameAfterDot(f: Factory, className: string, simpleName: string, name: string)
    requires f.Valid() && className == f.packagePrefix + "." + simpleName && '.' !in simpleName
    requires name == "//" + simpleName
    ensures TransactionName(f, RequestTarget(Some(className), None, None, None)) == Some(name)
  {
    DoubleSlashWithoutTrailingDot(f, simpleName);
    ReplaceAbsent(simpleName, '.', '/');
  }

  /** A listener on page prefix + simpleName is named "/" + simpleName + "/" + target id + "/" + interface. */
  lemma SimpleListenerName(f: Factory, className: string, simpleName: string, listener: Listener, name: string)
    requires f.Valid() && className == f.packagePrefix + simpleName && '.' !in simpleName
    requires name == "/" + simpleName + "/" + listener.targetId + "/" + listener.interfaceName
    ensures TransactionName(f, RequestTarget(None, Some(className), Some(listener), None)) == Some(name)
  {
    PathOfPrefixedName(f, className, simpleName);
    ReplaceAbsent(simpleName, '.', '/');
    PageName(f, RequestTarget(None, Some(className), Some(listener), None));
  }

  /** A component on page prefix + simpleName is named "/" + simpleName + "/" + component id. */
  lemma SimpleComponentName(f: Factory, component: ComponentRef, simpleName: string, name: string)
    requires f.Valid() && component.pageClass == f.packagePrefix + simpleName && '.' !in simpleName
    requires name == "/" + simpleName + "/" + component.componentId
    ensures TransactionName(f, RequestTarget(None, None, None, Some(component))) == Some(name)
  {
    PathOfPrefixedName(f, component.pageClass, simpleName);
    ReplaceAbsent(simpleName, '.', '/');
    ComponentName(f, RequestTarget(None, None, None, Some(component)));
  }

  // The examples a reader of the class documentation would expect.

  /** Prefix "com.app.pages." (with its dot): a bookmarkable com.app.pages.Home is "/Home". */
  lemma HomeWithDottedPrefix(f: Factory, home: string)
    requires f == NewFactory("com.app.pages.") && home == "com.app.pages.Home"
    ensures TransactionName(f, RequestTarget(Some(home), None, None, None)) == Some("/Home")
  {
    SimpleBookmarkableName(f, home, "Home", "/Home");
  }

  /** Prefix "com.app.pages" (no trailing dot): the same page is "//Home". */
  lemma HomeWithUndottedPrefix(f: Factory, home: string)
    requires f == NewFactory("com.app.pages") && home == "com.app.pages.Home"
    ensures TransactionName(f, RequestTarget(Some(home), None, None, None)) == Some("//Home")
  {
    SimpleBookmarkableNameAfterDot(f, home, "Home", "//Home");
  }

  /** A form submit on com.app.pages.Edit: "/Edit/submitBtn/IFormSubmitListener". */
  lemma EditFormSubmit(f: Factory, edit: string, listener: Listener)
    requires f == NewFactory("com.app.pages.") && edit == "com.app.pages.Edit"
    requires listener == Listener("submitBtn", "IFormSubmitListener")
    ensures TransactionName(f, RequestTarget(None, Some(edit), Some(listener), None))
      == Some("/Edit/submitBtn/IFormSubmitListener")
  {
    assert "/" + "Edit" + "/" + "submitBtn" == "/Edit/submitBtn";
    assert "/Edit/submitBtn" + "/" + "IFormSubmitListener" == "/Edit/submitBtn/IFormSubmitListener";
    SimpleListenerName(f, edit, "Edit", listener, "/Edit/submitBtn/IFormSubmitListener");
  }

  /** A component row-3 on com.app.pages.List: "/List/row-3". */
  lemma ListRowComponent(f: Factory, row: ComponentRef)
    requires f == NewFactory("com.app.pages.") && row == ComponentRef("com.app.pages.List", "row-3")
    ensures TransactionName(f, RequestTarget(None, None, None, Some(row))) == Some("/List/row-3")
  {
    SimpleComponentName(f, row, "List", "/List/row-3");
  }
}
