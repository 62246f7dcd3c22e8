# New Relic transaction naming for Wicket request cycles

This project models the request-cycle factory of `newrelic-java-wicket`
(`NewRelicRequestCycleFactory`), the component that connects Wicket 1.x request
cycles to the New Relic Java agent:

- The factory holds a package prefix. `pageClassToPath` strips that prefix from a
  page's class name, as raw characters, and turns every `.` into `/`.
- Each `NewRelicRequestCycle` keeps a per-request `FIRST_TARGET` flag.
  - `onBeginRequest` sets the flag to true and passes the session's user and
    account names to the agent when the session supports `NewRelicSessionSupport`.
  - The first `onRequestTargetSet` of a request clears the flag. It then either
    names the transaction or tells the agent to ignore it.
  - Later `onRequestTargetSet` calls in the same request do nothing.
  - `onRuntimeException` reports the error and returns no replacement page.

Files:

- `strings.dfy`, module `Strings`: `String.startsWith`, `String.replace(char, char)`
  and a `/`-join of path segments over `seq<char>`.
- `request_cycle.dfy`, module `RequestCycleFactory`:
  - the factory as an immutable datatype, with `PageClassToPath`;
  - a request target as a record of optional capabilities
    (`IBookmarkablePageRequestTarget`, `IPageRequestTarget`,
    `IListenerInterfaceRequestTarget`, `IComponentRequestTarget`).
    Several capabilities can be present at once, so the priority order of the
    `instanceof` checks is observable;
  - the naming rule as functions: `Classify` picks the branch and
    `TransactionName` gives the name, or `None` for an ignored transaction;
  - the request cycle as a class. Its `firstTarget` field is the `FIRST_TARGET`
    metadata, `None` until the request begins. Its `log` lists the agent calls
    made so far, as `Effect` values.

`OnRequestTargetSet` builds the name by successive appends to a string that starts
as `"/"`, as the Java `StringBuilder` does. Its postcondition ties the appended
agent call to `TransactionName`. `TransactionName` is defined independently, as
`"/"` followed by the classified target's segments joined with `/`.

Where the class documentation and the code disagree, the model follows the code:

- Unmatched targets. The class comment says they are named after the request path
  (NewRelicRequestCycleFactory.java:63-64). The code calls `ignoreTransaction()` and
  sets no name (NewRelicRequestCycleFactory.java:138-140).
- Prefix stripping. The prefix is removed as raw characters, with no check for a
  package boundary. With prefix `com.app.pages`, page `com.app.pages.Home` becomes
  `//Home`. A single slash comes out only when the prefix ends in `.`, as with
  `com.app.pages.` giving `/Home`. `HomeWithUndottedPrefix` and
  `HomeWithDottedPrefix` prove both.

## Model

| member | source | states |
|---|---|---|
| `Strings.Replace` | src/main/java/com/wyndhamjade/util/wicket/newrelic/NewRelicRequestCycleFactory.java:95 | `replace('.', '/')` keeps the length; each character equal to `from` becomes `to`, every other character stays in place |
| `Strings.ReplaceAppend` | src/main/java/com/wyndhamjade/util/wicket/newrelic/NewRelicRequestCycleFactory.java:95 | replacing characters in a concatenation is the concatenation of the replaced parts |
| `Strings.ReplaceRemoves` | src/main/java/com/wyndhamjade/util/wicket/newrelic/NewRelicRequestCycleFactory.java:95 | after replacing `from` by another character, `from` no longer occurs |
| `RequestCycleFactory.NewFactory` | src/main/java/com/wyndhamjade/util/wicket/newrelic/NewRelicRequestCycleFactory.java:76-79 | the constructor keeps the prefix, and the cached `packagePrefixLength` equals its length |
| `RequestCycleFactory.Factory.PageClassToPath` | src/main/java/com/wyndhamjade/util/wicket/newrelic/NewRelicRequestCycleFactory.java:87-96 | for a name that starts with the prefix, the slashed prefix followed by the path is the whole slashed name; otherwise the path is the whole name slashed; the path never contains `.` |
| `RequestCycleFactory.PathIsSlashedRemainder` | src/main/java/com/wyndhamjade/util/wicket/newrelic/NewRelicRequestCycleFactory.java:87-95 | the path is as long as the name less the prefix, when the name starts with it, or else as long as the whole name; character i of the path is the matching kept character with `.` turned into `/` |
| `RequestCycleFactory.PathOfPrefixedName` | src/main/java/com/wyndhamjade/util/wicket/newrelic/NewRelicRequestCycleFactory.java:90-95 | the path of prefix + rest is rest, slashed |
| `RequestCycleFactory.PathKeepsLeadingDot` | src/main/java/com/wyndhamjade/util/wicket/newrelic/NewRelicRequestCycleFactory.java:90-95 | stripping is by raw characters: the path of prefix + "." + name is "/" + name, slashed |
| `RequestCycleFactory.DoubleSlashWithoutTrailingDot` | src/main/java/com/wyndhamjade/util/wicket/newrelic/NewRelicRequestCycleFactory.java:122-125 | a bookmarkable page prefix + "." + name gets the transaction name "//" + name, slashed |
| `RequestCycleFactory.TransactionName` | src/main/java/com/wyndhamjade/util/wicket/newrelic/NewRelicRequestCycleFactory.java:122-141 | no name (the transaction is ignored) exactly when the target is neither a bookmarkable page, a page nor a component target; every name starts with `/` |
| `RequestCycleFactory.BookmarkablePageName` | src/main/java/com/wyndhamjade/util/wicket/newrelic/NewRelicRequestCycleFactory.java:124-125 | a bookmarkable target is named "/" + path of its page class, whatever other capabilities it has |
| `RequestCycleFactory.PageName` | src/main/java/com/wyndhamjade/util/wicket/newrelic/NewRelicRequestCycleFactory.java:126-133 | a non-bookmarkable page target is named "/" + path of its page's class, followed by "/" + target id + "/" + interface name when it is also a listener target |
| `RequestCycleFactory.ListenerNeedsPage` | src/main/java/com/wyndhamjade/util/wicket/newrelic/NewRelicRequestCycleFactory.java:126-134 | a listener capability changes nothing for a target that is not a page target |
| `RequestCycleFactory.ComponentName` | src/main/java/com/wyndhamjade/util/wicket/newrelic/NewRelicRequestCycleFactory.java:134-137 | a component target that is neither bookmarkable nor a page is named "/" + path of its page's class + "/" + component id |
| `RequestCycleFactory.TargetEffectIgnoresOnlyUnrecognised` | src/main/java/com/wyndhamjade/util/wicket/newrelic/NewRelicRequestCycleFactory.java:138-143 | the first target causes `ignoreTransaction()` exactly when it has no recognised capability; otherwise `setTransactionName` with a null category and the computed name |
| `RequestCycleFactory.BeginEffectsOnlyWithSupport` | src/main/java/com/wyndhamjade/util/wicket/newrelic/NewRelicRequestCycleFactory.java:108-114 | without a session, or with one lacking `NewRelicSessionSupport`, the agent is told nothing; otherwise it gets the user name and then the account name |
| `RequestCycleFactory.RequestCycle.constructor` | src/main/java/com/wyndhamjade/util/wicket/newrelic/NewRelicRequestCycleFactory.java:98-103 | a new cycle has no `FIRST_TARGET` entry and has made no agent calls |
| `RequestCycleFactory.NewRequestCycle` | src/main/java/com/wyndhamjade/util/wicket/newrelic/NewRelicRequestCycleFactory.java:81-85 | `newRequestCycle` returns a fresh cycle bound to this factory, not yet begun |
| `RequestCycleFactory.RequestCycle.OnBeginRequest` | src/main/java/com/wyndhamjade/util/wicket/newrelic/NewRelicRequestCycleFactory.java:105-115 | the flag becomes true; the log grows by the session's user and account names when the session supports them, and by nothing otherwise |
| `RequestCycleFactory.RequestCycle.OnRequestTargetSet` | src/main/java/com/wyndhamjade/util/wicket/newrelic/NewRelicRequestCycleFactory.java:117-145 | the flag is false afterwards; if it was true, exactly one agent call (the target's name or `ignoreTransaction`) is appended, otherwise the log is unchanged |
| `RequestCycleFactory.RequestCycle.OnRuntimeException` | src/main/java/com/wyndhamjade/util/wicket/newrelic/NewRelicRequestCycleFactory.java:147-151 | one `noticeError` with the exception is appended, the flag is untouched, and no replacement page is returned |
| `RequestCycleFactory.RequestWithRedirect` | src/main/java/com/wyndhamjade/util/wicket/newrelic/NewRelicRequestCycleFactory.java:106-120 | a request whose target is set twice tells the agent the session names and then only about the first target |
| `RequestCycleFactory.SimpleBookmarkableName` | src/main/java/com/wyndhamjade/util/wicket/newrelic/NewRelicRequestCycleFactory.java:122-125 | a bookmarkable page prefix + name, where name has no `.`, is named "/" + name |
| `RequestCycleFactory.SimpleBookmarkableNameAfterDot` | src/main/java/com/wyndhamjade/util/wicket/newrelic/NewRelicRequestCycleFactory.java:122-125 | a bookmarkable page prefix + "." + name, where name has no `.`, is named "//" + name |
| `RequestCycleFactory.SimpleListenerName` | src/main/java/com/wyndhamjade/util/wicket/newrelic/NewRelicRequestCycleFactory.java:126-133 | a listener on page prefix + name, where name has no `.`, is named "/" + name + "/" + target id + "/" + interface name |
| `RequestCycleFactory.SimpleComponentName` | src/main/java/com/wyndhamjade/util/wicket/newrelic/NewRelicRequestCycleFactory.java:134-137 | a component on page prefix + name, where name has no `.`, is named "/" + name + "/" + component id |
| `RequestCycleFactory.HomeWithDottedPrefix` | src/main/java/com/wyndhamjade/util/wicket/newrelic/NewRelicRequestCycleFactory.java:87-96 | with prefix `com.app.pages.`, bookmarkable `com.app.pages.Home` is named `/Home` |
| `RequestCycleFactory.HomeWithUndottedPrefix` | src/main/java/com/wyndhamjade/util/wicket/newrelic/NewRelicRequestCycleFactory.java:87-96 | with prefix `com.app.pages`, bookmarkable `com.app.pages.Home` is named `//Home` |
| `RequestCycleFactory.EditFormSubmit` | src/main/java/com/wyndhamjade/util/wicket/newrelic/NewRelicRequestCycleFactory.java:126-133 | a form submit on `com.app.pages.Edit`, component `submitBtn`, interface `IFormSubmitListener` is named `/Edit/submitBtn/IFormSubmitListener` |
| `RequestCycleFactory.ListRowComponent` | src/main/java/com/wyndhamjade/util/wicket/newrelic/NewRelicRequestCycleFactory.java:134-137 | component `row-3` on `com.app.pages.List` is named `/List/row-3` |

## Left out

- `NewRelicLabels.java`: two factory methods that wrap Wicket `Label`s around live calls to the agent's browser-timing header and footer. They have no logic beyond constant ids and an escape flag.
- The New Relic agent itself (`NewRelic.*`): each call is only recorded as an `Effect` in the cycle's `log`. The agent's state, transport and thread safety are not modelled. The agent is a process-wide singleton; the model gives each cycle its own log of the calls it made.
- Wicket's `WebRequestCycle` base class, `MetaDataKey` storage, session lookup and `Class.getName()`: the flag is a field, the session is a parameter of `OnBeginRequest`, and class names, component ids and listener interface names are plain strings supplied with the target.
- `OnRequestTargetSet` before `OnBeginRequest`: the Java code unboxes a null metadata value and throws `NullPointerException`. The model requires that the request has begun.
- The `RuntimeException` and the `Page` passed to `onRuntimeException` are opaque values; the page is not used.
- Concurrency across requests: each cycle belongs to one request.
