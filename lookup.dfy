/** The two lookups of the builder: a configuration of a kind, taken from the user's
    documents or else from the provider defaults, and the virtual-machine document a
    component runs on. Both are first-match searches over the user's documents. */
module Lookup {
  import opened Wrappers
  import opened Configs

  /** The position of the first element satisfying `p`, if any (`select_first`). */
  function SelectFirst<T>(s: seq<T>, p: T -> bool): (r: Option<nat>)
    ensures r.Some? ==> r.value < |s| && p(s[r.value])
    ensures r.Some? ==> forall k :: 0 <= k < r.value ==> !p(s[k])
    ensures r.None? ==> forall k :: 0 <= k < |s| ==> !p(s[k])
  {
    if s == [] then None
    else if p(s[0]) then Some(0)
    else match SelectFirst(s[1..], p)
      case None => None
      case Some(k) => Some(k + 1)
  }

  /** The user supplied a document of `kind`. */
  predicate Supplies(userInput: seq<Config>, kind: string) {
    exists k :: 0 <= k < |userInput| && userInput[k].kind == kind
  }

  /** `get_config_or_default`: the provider default of `kind` when the user supplied no
      document of that kind. When the user did supply one, the source falls off the end
      of the function without returning it, so the caller receives `None`. */
  function ConfigOrDefault(userInput: seq<Config>, kind: string, d: Defaults): (r: Option<Config>)
    ensures r.None? <==> Supplies(userInput, kind)
    ensures r.Some? ==> r.value.kind == kind && r.value.spec == d.load(kind)
  {
    var found := SelectFirst(userInput, (c: Config) => c.kind == kind);
    if found.None? then Some(LoadDefault(d, kind)) else None
  }

  /** A user document is the virtual machine named `selector`. */
  predicate IsMachine(c: Config, selector: string) {
    c.kind == VIRTUAL_MACHINE && c.name == selector
  }

  /** Where a component's virtual-machine document comes from: the user's document at
      an index of the user input (the very object, not a copy), or a fresh merged
      default. */
  datatype VmSource = UserEntry(index: nat) | Merged(config: Config)

  /** `get_virtual_machine`: the first user document of kind virtual-machine named by
      the component's `machine`; only when there is none, the merged provider default. */
  function VirtualMachine(comp: Component, cluster: Cluster, userInput: seq<Config>, d: Defaults): (r: VmSource)
    ensures r.UserEntry? ==> r.index < |userInput| && IsMachine(userInput[r.index], comp.machine)
    ensures r.UserEntry? ==> forall k :: 0 <= k < r.index ==> !IsMachine(userInput[k], comp.machine)
    ensures r.Merged? ==> forall k :: 0 <= k < |userInput| ==> !IsMachine(userInput[k], comp.machine)
    ensures r.Merged? ==> r.config.kind == VIRTUAL_MACHINE
    ensures r.Merged? ==> r.config.spec == d.merge(cluster.provider, VIRTUAL_MACHINE, comp.machine)
  {
    var found := SelectFirst(userInput, (c: Config) => IsMachine(c, comp.machine));
    match found
    case Some(k) => UserEntry(k)
    case None => Merged(MergeDefault(d, cluster.provider, comp.machine))
  }
}
