/**
 * `model($options)`: how a model-bound form picks its HTTP method and its
 * target. The options reach it after `open` has normalised them; the model
 * object itself is handed to the form builder separately, so the result is
 * the option array passed along with it.
 */
module ModelRoute {
  import opened Php

  /** The keys the form builder must not see as attributes. */
  const RouteKeys: set<string> := {"model", "update", "store"}

  /** A route given as `'name'` or as `['name', parameters...]` is named by its first element. */
  function RouteName(target: Value): Value {
    if target.Arr? then ArrayFirst(target.entries) else target
  }

  /** `Str::contains($name, '@') ? 'action' : 'route'`: a `Controller@method` target is an action. */
  function TargetKey(target: Value): (r: string)
    ensures r == "action" || r == "route"
    ensures r == "action" <==> Contains(ToStr(RouteName(target)), "@")
  {
    if Contains(ToStr(RouteName(target)), "@") then "action" else "route"
  }

  /** `!is_null($model) && $model->exists`; a property read on a non-object yields null. */
  predicate IsExistingModel(model: Value) {
    model.Record? && model.persisted
  }

  /** An explicit URL: the route keys go and the method defaults to GET. */
  function UrlOptions(options: Options): (r: Options)
    ensures r.Keys == options.Keys - RouteKeys + {"method"}
    ensures r["method"] == if IsSet(options, "method") then options["method"] else Str("GET")
    ensures forall k :: k in options && k !in RouteKeys && k != "method" ==> k in r && r[k] == options[k]
  {
    (options - RouteKeys)["method" := Coalesce(Get(options, "method"), Str("GET"))]
  }

  /** The target written under `target` and the method set; the route keys go, all else stays. */
  function Routed(options: Options, target: string, route: Value, httpMethod: string): (r: Options)
    requires target !in RouteKeys
    ensures r.Keys == options.Keys - RouteKeys + {"method", target}
    ensures r["method"] == Str(httpMethod) && (target != "method" ==> r[target] == route)
    ensures forall k :: k in options && k !in RouteKeys && k != "method" && k != target ==> r[k] == options[k]
  {
    options[target := route]["method" := Str(httpMethod)] - RouteKeys
  }

  /** An existing model: PUT to the update route with the model's route key appended. */
  function UpdateOptions(options: Options): (r: Options)
    requires "model" in options && options["model"].Record?
    ensures var target := TargetKey(Get(options, "update"));
            && r.Keys == options.Keys - RouteKeys + {"method", target}
            && r["method"] == Str("PUT")
            && r[target] == Arr(AppendValue(ToArray(Get(options, "update")), options["model"].routeKey))
            && Values(r[target].entries) == Values(ToArray(Get(options, "update"))) + [options["model"].routeKey]
            && forall k :: k in options && k !in RouteKeys && k != "method" && k != target ==> r[k] == options[k]
  {
    var update := Get(options, "update");
    Routed(options, TargetKey(update), Arr(AppendValue(ToArray(update), options["model"].routeKey)), "PUT")
  }

  /** A new model: POST to the store route. */
  function StoreOptions(options: Options): (r: Options)
    ensures var target := TargetKey(Get(options, "store"));
            && r.Keys == options.Keys - RouteKeys + {"method", target}
            && r["method"] == Str("POST")
            && r[target] == Get(options, "store")
            && forall k :: k in options && k !in RouteKeys && k != "method" && k != target ==> r[k] == options[k]
  {
    var store := Get(options, "store");
    Routed(options, TargetKey(store), store, "POST")
  }

  /** The options `model($options)` passes to `form->model($model, ...)`. */
  function ModelOptions(options: Options): (r: Options)
    requires "model" in options
    ensures "model" !in r
    ensures r.Keys <= options.Keys + {"method", "route", "action"}
    // an explicit URL wins: the route keys go and the method defaults to GET
    ensures IsSet(options, "url") ==> r.Keys == options.Keys - RouteKeys + {"method"}
    ensures IsSet(options, "url") ==>
              r["method"] == if IsSet(options, "method") then options["method"] else Str("GET")
    ensures IsSet(options, "url") ==>
              forall k :: k in options && k !in RouteKeys && k != "method" ==> k in r && r[k] == options[k]
    // neither store nor update: the form submits to itself
    ensures !IsSet(options, "url") && !IsSet(options, "store") && !IsSet(options, "update") ==>
              r == options - {"model"}
    // otherwise PUT to the update route of an existing model, else POST to the store route
    ensures !IsSet(options, "url") && (IsSet(options, "store") || IsSet(options, "update")) ==>
              && r.Keys !! RouteKeys
              && "method" in r
              && r["method"] == (if IsExistingModel(options["model"]) then Str("PUT") else Str("POST"))
    ensures !IsSet(options, "url") && (IsSet(options, "store") || IsSet(options, "update")) &&
            IsExistingModel(options["model"]) ==>
              TargetKey(Get(options, "update")) in r &&
              var target := r[TargetKey(Get(options, "update"))];
              target.Arr? && Values(target.entries) ==
                Values(ToArray(Get(options, "update"))) + [options["model"].routeKey]
    ensures !IsSet(options, "url") && (IsSet(options, "store") || IsSet(options, "update")) &&
            !IsExistingModel(options["model"]) ==>
              TargetKey(Get(options, "store")) in r && r[TargetKey(Get(options, "store"))] == Get(options, "store")
    // on the routed path only the chosen target and `method` are written
    ensures !IsSet(options, "url") && (IsSet(options, "store") || IsSet(options, "update")) ==>
              r.Keys == options.Keys - RouteKeys +
                        {"method", TargetKey(Get(options, if IsExistingModel(options["model"]) then "update" else "store"))}
    ensures !IsSet(options, "url") && (IsSet(options, "store") || IsSet(options, "update")) ==>
              var target := TargetKey(Get(options, if IsExistingModel(options["model"]) then "update" else "store"));
              forall k :: k in options && k !in RouteKeys && k != "method" && k != target ==> k in r && r[k] == options[k]
    // every other option is passed on untouched
    ensures forall k :: k in options && k !in RouteKeys && k != "method" && k != "route" && k != "action" ==>
              k in r && r[k] == options[k]
  {
    if IsSet(options, "url") then UrlOptions(options)
    else if !IsSet(options, "store") && !IsSet(options, "update") then options - {"model"}
    else if IsExistingModel(options["model"]) then UpdateOptions(options)
    else StoreOptions(options)
  }

  /**
   * An existing model opened with only a store route still gets PUT, and its
   * route is the model's route key alone (`update` reads as null).
   */
  lemma ExistingModelWithoutUpdate(options: Options)
    requires "model" in options && IsExistingModel(options["model"])
    requires !IsSet(options, "url") && IsSet(options, "store") && "update" !in options
    ensures ModelOptions(options)["method"] == Str("PUT")
    ensures "route" in ModelOptions(options)
    ensures ModelOptions(options)["route"] == Arr([(Int(0), options["model"].routeKey)])
  {
    assert !Contains(ToStr(Null), "@");
  }
}
