# REST controller reader (FOSRestBundle) in Dafny

This project models `RestControllerReader`, the routing-loader class of FOSRestBundle that turns
a controller class into a `RestRouteCollection`. Reading a controller takes these steps:

1. It creates a new collection and records the controller's file as a resource of it.
2. It applies the class-level `Prefix` and `NamePrefix` annotations to the shared action reader,
   then strips one leading `/` from the action reader's route prefix.
3. With `type === 'rest_class'`, it splits the resource name off the short class name with
   `preg_match('/([_a-zA-Z0-9]+)Controller/', ...)`. When nothing matches, it throws.
4. It hands every public method, in order, to the action reader's `read`.
5. It resets the action reader's route prefix, name prefix and parents.

Files:

- `wrappers.dfy` (module `Wrappers`): `Option` stands for PHP's `null`. `Result` stands for a call
  that may throw.
- `string_rules.dfy` (module `StringRules`) holds the two string rules.
  - The leading-slash trim.
  - The resource-name regex. It is modelled the way a backtracking engine runs it: leftmost
    start, then the greedy `+`, which gives characters back until `Controller` follows
    (`RunEnd`, `LastControllerAt`, `MatchFrom`). That scan is proved equal to a declarative
    definition, `Captures` and `IsLeftmostGreedy`.
- `controller_reader.dfy` (module `ControllerReader`) holds the controller record, the
  annotation reader (a map) and three classes.
  - `RouteCollection` has mutable `resources` and `routes`.
  - `ActionReader` is the collaborator. It has mutable `routePrefix`, `namePrefix` and `parents`,
    and a ghost log of the calls made to its `read`.
  - `RestControllerReader` has `Read` and its two steps, `ApplyClassPrefixes` (source lines
    62-75) and `ReadActionRoutes` (source lines 86-89). In the source these steps are written
    inline in `read`. They are separate methods here so that each one's proof stays small.
  - `PrefixSurvivesFailedRead` is a client method. It shows that after a read that throws, the
    next read on the same action reader still sees the first class's prefix.

Two consequences of the code are worth stating:

- The naming rule is not a suffix check. The regex is unanchored and greedy, so
  `PostControllerTest` gives `Post` and `FooControllerBarController` gives `FooControllerBar`.
- `read` has no `try`/`finally`. So when line 80 throws, or the action reader's `read` throws
  at line 88, the resets at lines 91-93 do not run. `Read` states this on its failure path,
  and `PrefixSurvivesFailedRead` shows the effect.

## Model

| member | source | states |
|---|---|---|
| `ControllerReader.RestControllerReader.constructor` | Routing/Loader/Reader/RestControllerReader.php:34-38 | the reader keeps the given action reader and annotation reader |
| `ControllerReader.RestControllerReader.GetActionReader` | Routing/Loader/Reader/RestControllerReader.php:45-48 | returns the action reader given at construction |
| `ControllerReader.RestControllerReader.ReadClassAnnotation` | Routing/Loader/Reader/RestControllerReader.php:106-113 | an annotation is returned exactly when the annotation reader has one for the class under the namespaced annotation class; that annotation is the one returned, otherwise null |
| `ControllerReader.AnnotationClassSplits` | Routing/Loader/Reader/RestControllerReader.php:108 | the looked-up class is the fixed `FOS\RestBundle\Controller\Annotations\` namespace followed by the short name, which can be split back off |
| `ControllerReader.AnnotationClassInjective` | Routing/Loader/Reader/RestControllerReader.php:108 | distinct short names (`Prefix`, `NamePrefix`) are looked up under distinct classes |
| `ControllerReader.RestControllerReader.Read` | Routing/Loader/Reader/RestControllerReader.php:57-96 | builds a fresh collection whose only resource is the controller's file. When resource resolution fails it throws `CannotSplitResourceName` and delegates nothing. Otherwise it succeeds exactly when the action reader throws for no public method, and then returns that collection holding the routes of every public method in order. On an action-reader exception it throws `ActionReadFailed` for the first failing method. Either way, one call per method up to and including the failing one is logged, in order, each with that collection, the same resource, the annotated-then-trimmed route prefix, the annotated name prefix, the old parents, and the file already registered. After a success both prefixes are null and parents is empty. After any failure the prefixes stay as set and trimmed, and parents is unchanged |
| `ControllerReader.RestControllerReader.ApplyClassPrefixes` | Routing/Loader/Reader/RestControllerReader.php:62-75 | a present Prefix/NamePrefix annotation's value replaces the setting, an absent one leaves it as it was; then one leading `/` is stripped from the route prefix |
| `ControllerReader.RestControllerReader.ReadActionRoutes` | Routing/Loader/Reader/RestControllerReader.php:86-89 | the methods are passed to the action reader in order, with the same collection and resource, up to and including the first one for which it throws. It succeeds exactly when none throws, and the collection then gains exactly their routes, in that order. Otherwise it fails with that first method |
| `ControllerReader.RouteCollection.constructor` | Routing/Loader/Reader/RestControllerReader.php:59 | a new collection has no resources and no routes |
| `ControllerReader.RouteCollection.AddResource` | Routing/Loader/Reader/RestControllerReader.php:60 | the file is appended to the resources |
| `ControllerReader.ActionReader.SetRoutePrefix` | Routing/Loader/Reader/RestControllerReader.php:64 | the route prefix becomes the given value |
| `ControllerReader.ActionReader.GetRoutePrefix` | Routing/Loader/Reader/RestControllerReader.php:73 | returns the current route prefix |
| `ControllerReader.ActionReader.SetNamePrefix` | Routing/Loader/Reader/RestControllerReader.php:69 | the name prefix becomes the given value |
| `ControllerReader.ActionReader.SetParents` | Routing/Loader/Reader/RestControllerReader.php:93 | parents becomes the given list |
| `ControllerReader.ActionReader.Read` | Routing/Loader/Reader/RestControllerReader.php:88 | logs the call with the current configuration and the collection's resources. It succeeds exactly when routes can be derived for the method, and then appends them. Otherwise it throws for that method and leaves the routes as they were |
| `ControllerReader.AnnotatedValue` | Routing/Loader/Reader/RestControllerReader.php:62-70 | a present annotation's value replaces the setting, even when that value is null; an absent annotation keeps the setting |
| `ControllerReader.FirstFailure` | Routing/Loader/Reader/RestControllerReader.php:87-89 | the position where the loop stops: the action reader does not throw for any method before it, and it throws for the method at that position, if there is one |
| `ControllerReader.FirstFailureIs` | Routing/Loader/Reader/RestControllerReader.php:87-89 | the loop stops at `k` when every earlier method succeeds and the method at `k`, if any, throws |
| `ControllerReader.DelegatingStep` | Routing/Loader/Reader/RestControllerReader.php:87-89 | an iteration whose `read` does not throw extends the delegation by that method's routes and call |
| `ControllerReader.DelegatingStops` | Routing/Loader/Reader/RestControllerReader.php:87-89 | an iteration whose `read` throws is the first failure, and its call is the last one logged |
| `ControllerReader.DelegatingDone` | Routing/Loader/Reader/RestControllerReader.php:87-89 | a loop that completes had no failure, and its routes and calls cover every method in order |
| `ControllerReader.PrefixSurvivesFailedRead` | Routing/Loader/Reader/RestControllerReader.php:80-93 | after a `rest_class` read of `Manager` with `Prefix("/api")` throws, a `rest` read of an unannotated class on the same action reader builds its route with the prefix `api` |
| `ControllerReader.ResolveResource` | Routing/Loader/Reader/RestControllerReader.php:77-84 | null unless the type is exactly `rest_class`; in that mode it fails exactly when no word run is followed by `Controller`, and otherwise it is the leftmost-greedy capture |
| `ControllerReader.DelegatedRoutesSnoc` | Routing/Loader/Reader/RestControllerReader.php:87-89 | delegating one more method appends that method's routes after the earlier ones |
| `ControllerReader.DelegatedRoutesAppend` | Routing/Loader/Reader/RestControllerReader.php:87-89 | the routes of two runs of methods are the first run's routes followed by the second's |
| `ControllerReader.DelegatedInOrderStep` | Routing/Loader/Reader/RestControllerReader.php:87-89 | logging one more call extends the in-order delegation by that method |
| `StringRules.TrimLeadingSlash` | Routing/Loader/Reader/RestControllerReader.php:72-75 | null stays null; a prefix starting with `/` becomes the rest, so that `/` + result is the prefix; any other prefix is unchanged |
| `StringRules.TrimStripsOnlyOneSlash` | Routing/Loader/Reader/RestControllerReader.php:73-74 | `//x` keeps a leading `/` and loses exactly one character |
| `StringRules.TrimExamples` | Routing/Loader/Reader/RestControllerReader.php:73-75 | `/foo` to `foo`, `//foo` to `/foo`, `foo` and null unchanged, `/` to the empty string |
| `StringRules.RunEnd` | Routing/Loader/Reader/RestControllerReader.php:79 | the end of the maximal `[_a-zA-Z0-9]` run from a position |
| `StringRules.LastControllerAt` | Routing/Loader/Reader/RestControllerReader.php:79 | the last position in a range where `Controller` starts, or none |
| `StringRules.CapturesWithinRun` | Routing/Loader/Reader/RestControllerReader.php:79 | from a start, the group can end exactly at a `Controller` inside the word run there |
| `StringRules.MatchFrom` | Routing/Loader/Reader/RestControllerReader.php:79 | scanning starts from a position finds the first start with a match and the longest group there, or proves that no start from there matches |
| `StringRules.ResourceName` | Routing/Loader/Reader/RestControllerReader.php:79-83 | none exactly when no word run is followed by `Controller`; otherwise the leftmost, then longest, capture |
| `StringRules.LeftmostGreedyUnique` | Routing/Loader/Reader/RestControllerReader.php:79 | the leftmost-greedy match is unique |
| `StringRules.ResourceNameIs` | Routing/Loader/Reader/RestControllerReader.php:79-83 | the resource name is whichever span is the leftmost-greedy match |
| `StringRules.ResourceNameOfConventionalName` | Routing/Loader/Reader/RestControllerReader.php:79-83 | for any non-empty word `N`, the name `N` + `Controller` yields `N` |
| `StringRules.ControllerAtStartsWithC` | Routing/Loader/Reader/RestControllerReader.php:79 | `Controller` at a position means a capital `C` there |
| `StringRules.ResourceNameOfPostController` | Routing/Loader/Reader/RestControllerReader.php:79-83 | `PostController` yields `Post` |
| `StringRules.ResourceNameIsGreedy` | Routing/Loader/Reader/RestControllerReader.php:79-83 | `FooControllerBarController` yields `FooControllerBar` |
| `StringRules.ResourceNameIgnoresTail` | Routing/Loader/Reader/RestControllerReader.php:79-83 | for any non-empty word `N` and any tail `T` without a capital `C`, the name `N` + `Controller` + `T` yields `N` |
| `StringRules.ResourceNameIsUnanchored` | Routing/Loader/Reader/RestControllerReader.php:79-83 | `PostControllerTest` yields `Post` |
| `StringRules.ResourceNameWithoutCapitalC` | Routing/Loader/Reader/RestControllerReader.php:79-81 | a name without a capital `C` has no resource name |
| `StringRules.ResourceNameOfManager` | Routing/Loader/Reader/RestControllerReader.php:79-81 | `Manager` has no resource name, so `rest_class` reading throws |
| `StringRules.ResourceNameOfBareController` | Routing/Loader/Reader/RestControllerReader.php:79-81 | bare `Controller` has no resource name |
| `StringRules.ResourceNameIsCaseSensitive` | Routing/Loader/Reader/RestControllerReader.php:79-81 | `postcontroller` has no resource name |

## Left out

- PHP reflection is replaced by the `Controller` record: class name, short name, file name and the list of public methods. Reflection's internals are not part of this model.
- Doctrine's annotation parsing is replaced by a map from class name to the class-level annotations, keyed by annotation class. Doctrine is a foreign library.
- The route generation inside `RestActionReader::read` is not part of this model. `ActionReader.Read` uses `derive(routePrefix, namePrefix, parents, method, resource)`, a function fixed at construction that gives the method's routes, or none when `read` throws. So the model assumes that routes, and whether `read` throws, depend only on the configuration, the method and the resource.
- ControllerReader.ActionReader.Read: the model assumes that the action reader's `read` changes neither its own prefixes nor its parents, and changes nothing in the collection except its routes. It also assumes that a `read` that throws adds no routes first.
- Symfony's `FileResource` and cache invalidation are reduced to the file name. `addResource` is modelled as an append.
- Exception messages are left out. `read`'s own exception is the value `CannotSplitResourceName`. An exception from the action reader is `ActionReadFailed(method)`, naming the method it was thrown for.
- PHP version quirks of `substr` are left out. `substr('/', 1)` is taken to be the empty string, and a null prefix is never trimmed, as `substr(null, 0, 1)` is not `'/'`.
- Characters are Dafny `char`s. PHP strings are bytes, but the pattern's character class is ASCII-only, so nothing else in this model depends on the encoding.
- Concurrency is left out: the source has none.
