/** The CiviCRM bridge: whether CiviCRM can be used, and the per-request
    cache of the custom groups attached to Events. */
module CiviCrm {
  import opened PhpValues
  import opened Optional

  /** One active custom field of a group: its id and its label text. */
  datatype CustomField = CustomField(id: string, text: string)

  /** One custom group, with the nested custom fields (`api.CustomField.get`
      `values`) that the API call chains onto it. */
  datatype CustomGroup = CustomGroup(title: string, fields: seq<CustomField>)

  /** The parts of the result array of `civicrm_api('CustomGroup', 'get', ...)`
      that the plugin reads. */
  datatype ApiResult = ApiResult(isError: Value, values: seq<CustomGroup>)

  /** What `is_initialised` can observe: whether `CIVICRM_INSTALLED` is
      defined and its value, whether `civi_wp` exists, and what
      `civi_wp()->initialize()` answers. */
  datatype Environment = Environment(installedDefined: bool, installed: Value, civiWpExists: bool, initializeResult: bool)

  /** `is_initialised()`: CiviCRM is usable only when installed, loaded and
      initialised. */
  function IsInitialised(env: Environment): (r: bool)
    ensures r <==> env.installedDefined && !Empty(env.installed) && env.civiWpExists && env.initializeResult
  {
    if !env.installedDefined then false
    else if Empty(env.installed) then false
    else if !env.civiWpExists then false
    else env.initializeResult
  }

  /** The groups a call result yields: none for an error envelope
      (`is_error` non-empty and casting to 1) or for empty `values`. */
  function ApiGroups(result: ApiResult): (r: Option<seq<CustomGroup>>)
    ensures r.Some? ==> r.value == result.values && r.value != []
    ensures r.None? <==> (!Empty(result.isError) && IntCastValue(result.isError) == 1) || result.values == []
  {
    if !Empty(result.isError) && IntCastValue(result.isError) == 1 then None
    else if result.values == [] then None
    else Some(result.values)
  }

  /** The outcome of one call of `custom_groups_get_for_events`: the groups
      returned, the cache afterwards, and whether the API was consulted. */
  datatype Fetch = Fetch(groups: seq<CustomGroup>, cache: Option<seq<CustomGroup>>, consulted: bool)

  /** `custom_groups_get_for_events()` as a function of the static cache, the
      environment and what the API would answer. */
  function GroupsFetch(cache: Option<seq<CustomGroup>>, env: Environment, api: ApiResult): (r: Fetch)
    ensures cache.Some? ==> r == Fetch(cache.value, cache, false)
    ensures cache.None? && !IsInitialised(env) ==> r == Fetch([], None, false)
    ensures cache.None? && IsInitialised(env) ==> r.consulted
    ensures r.cache.Some? ==> r.groups == r.cache.value
    ensures cache.None? && r.cache.Some? ==> r.groups != [] && r.groups == api.values
    ensures cache.None? && r.cache.None? ==> r.groups == []
    ensures cache.None? && IsInitialised(env) ==>
              r.cache == ApiGroups(api) && r.groups == (if ApiGroups(api).Some? then api.values else [])
  {
    if cache.Some? then Fetch(cache.value, cache, false)
    else if !IsInitialised(env) then Fetch([], None, false)
    else match ApiGroups(api)
      case None => Fetch([], None, true)
      case Some(groups) => Fetch(groups, Some(groups), true)
  }

  /** Only a successful call fills the cache; once filled, every later call
      returns the cached groups whatever the environment and the API say. */
  lemma CacheIsSticky(cache: Option<seq<CustomGroup>>, env: Environment, api: ApiResult, env2: Environment, api2: ApiResult)
    ensures var first := GroupsFetch(cache, env, api);
            first.cache.Some? ==> GroupsFetch(first.cache, env2, api2) == Fetch(first.groups, first.cache, false)
    ensures cache.None? && GroupsFetch(cache, env, api).cache.Some? ==> ApiGroups(api).Some?
  {
  }

  /** With CiviCRM usable and the cache empty, a successful call returns the
      groups the API answered and caches them. */
  lemma SuccessIsCached(env: Environment, api: ApiResult)
    requires IsInitialised(env) && ApiGroups(api).Some?
    ensures GroupsFetch(None, env, api) == Fetch(api.values, Some(api.values), true)
  {
  }

  /** An error envelope yields no groups and leaves the cache empty, so the
      next call asks the API again. */
  lemma ErrorIsRetried(env: Environment, values: seq<CustomGroup>, env2: Environment, api2: ApiResult)
    requires IsInitialised(env) && IsInitialised(env2)
    ensures var first := GroupsFetch(None, env, ApiResult(Int(1), values));
            first.groups == [] && first.cache == None && GroupsFetch(first.cache, env2, api2).consulted
  {
  }

  /** Only an error flag that casts to exactly 1 counts as an error: a result
      flagged 2 with values is taken as a success. */
  lemma OnlyErrorOneIsError(values: seq<CustomGroup>)
    requires values != []
    ensures ApiGroups(ApiResult(Int(2), values)) == Some(values)
    ensures ApiGroups(ApiResult(Str("1"), values)) == None
  {
    assert IntCastValue(Str("1")) == 1 by {
      assert PhpStrings.DecimalString(1) == "1";
      PhpStrings.IntCastDecimalString(1);
    }
  }

  /** The CiviCRM bridge object; `pseudocache` is the function's static. */
  class CiviCrm {
    var pseudocache: Option<seq<CustomGroup>>
    /** How many times the API has been called. */
    var apiCalls: nat

    constructor ()
      ensures pseudocache == None && apiCalls == 0
    {
      pseudocache := None;
      apiCalls := 0;
    }

    /** `custom_groups_get_for_events()`; `api` is what `civicrm_api` would
        answer if it were called now. */
    method CustomGroupsGetForEvents(env: Environment, api: ApiResult) returns (groups: seq<CustomGroup>)
      modifies this
      ensures var f := GroupsFetch(old(pseudocache), env, api);
              groups == f.groups && pseudocache == f.cache
              && apiCalls == old(apiCalls) + (if f.consulted then 1 else 0)
    {
      if pseudocache.Some? {
        return pseudocache.value;
      }
      groups := [];
      if !IsInitialised(env) {
        return;
      }
      apiCalls := apiCalls + 1;
      var result := api;
      if !Empty(result.isError) && IntCastValue(result.isError) == 1 {
        return;
      }
      if result.values == [] {
        return;
      }
      groups := result.values;
      pseudocache := Some(groups);
    }
  }
}
