/** Plugins and the extension methods that look functions up in them.

    A plugin is a named, ordered collection of functions, and the kernel
    keeps an ordered collection of plugins.  A function is looked up either
    in one named plugin or, when no plugin name is given, in every plugin in
    order, the first one holding a function of that name winning. */
module PluginExtensions {
  import opened Wrappers
  import opened Symbols

  /** A kernel function as the lookups see it.  Two functions may share a
      name and description and still be different objects; `handle` stands
      for that object identity. */
  datatype KernelFunction = KernelFunction(name: string, description: string, handle: nat)

  datatype Plugin = Plugin(name: string, description: string, functions: seq<KernelFunction>)

  /** A function's metadata, tagged with the name of the plugin it came from. */
  datatype FunctionMetadata = FunctionMetadata(pluginName: string, name: string, description: string)

  const KeyNotFoundMessage := "The plugin collection does not contain a plugin and/or function with the specified names."

  // ---------------------------------------------------------------------
  // Lookups inside one plugin and inside the collection

  /** The position of the first function of the plugin with that name. */
  function FunctionIndex(fs: seq<KernelFunction>, name: string): (r: Option<nat>)
    ensures r.Some? ==> r.value < |fs| && fs[r.value].name == name
    ensures r.Some? ==> forall j :: 0 <= j < r.value ==> fs[j].name != name
    ensures r.None? ==> forall j :: 0 <= j < |fs| ==> fs[j].name != name
    decreases |fs|
  {
    if fs == [] then None
    else if fs[0].name == name then Some(0)
    else match FunctionIndex(fs[1..], name)
      case None => None
      case Some(i) => Some(i + 1)
  }

  /** ISKPlugin.TryGetFunction: the plugin's function of that name. */
  function PluginFunction(p: Plugin, name: string): (r: Option<KernelFunction>)
    ensures r.Some? <==> exists j :: 0 <= j < |p.functions| && p.functions[j].name == name
    ensures r.Some? ==> r.value.name == name && r.value in p.functions
  {
    match FunctionIndex(p.functions, name)
    case None => None
    case Some(i) => Some(p.functions[i])
  }

  /** The position of the first plugin with that name. */
  function PluginIndex(plugins: seq<Plugin>, name: string): (r: Option<nat>)
    ensures r.Some? ==> r.value < |plugins| && plugins[r.value].name == name
    ensures r.Some? ==> forall j :: 0 <= j < r.value ==> plugins[j].name != name
    ensures r.None? ==> forall j :: 0 <= j < |plugins| ==> plugins[j].name != name
    decreases |plugins|
  {
    if plugins == [] then None
    else if plugins[0].name == name then Some(0)
    else match PluginIndex(plugins[1..], name)
      case None => None
      case Some(i) => Some(i + 1)
  }

  /** IReadOnlySKPluginCollection.TryGetPlugin: the plugin of that name. */
  function TryGetPlugin(plugins: seq<Plugin>, name: string): (r: Option<Plugin>)
    ensures r.Some? <==> exists j :: 0 <= j < |plugins| && plugins[j].name == name
    ensures r.Some? ==> r.value.name == name && r.value in plugins
  {
    match PluginIndex(plugins, name)
    case None => None
    case Some(i) => Some(plugins[i])
  }

  /** string.IsNullOrWhiteSpace on an optional plugin name. */
  predicate IsNullOrWhiteSpace(s: Option<string>) {
    s.None? || forall i :: 0 <= i < |s.value| ==> IsWhiteSpace(s.value[i])
  }

  /** The position of the first plugin that holds a function of that name. */
  function HolderIndex(plugins: seq<Plugin>, functionName: string): (r: Option<nat>)
    ensures r.Some? ==> r.value < |plugins| && PluginFunction(plugins[r.value], functionName).Some?
    ensures r.Some? ==> forall j :: 0 <= j < r.value ==> PluginFunction(plugins[j], functionName).None?
    ensures r.None? ==> forall j :: 0 <= j < |plugins| ==> PluginFunction(plugins[j], functionName).None?
    decreases |plugins|
  {
    if plugins == [] then None
    else if PluginFunction(plugins[0], functionName).Some? then Some(0)
    else match HolderIndex(plugins[1..], functionName)
      case None => None
      case Some(i) => Some(i + 1)
  }

  /** TryGetFunction: with a null or blank plugin name, the function from the
      first plugin, in collection order, that has one of that name; with a
      plugin name, the function of that name in that plugin only.  None
      stands for `false` with `func = null`. */
  function TryGetFunction(plugins: seq<Plugin>, pluginName: Option<string>, functionName: string): (r: Option<KernelFunction>)
    ensures r.Some? ==> r.value.name == functionName
    ensures IsNullOrWhiteSpace(pluginName) ==>
              (r.Some? <==> exists i :: 0 <= i < |plugins| && PluginFunction(plugins[i], functionName).Some?)
    ensures IsNullOrWhiteSpace(pluginName) && r.Some? ==>
              exists i :: 0 <= i < |plugins| && r == PluginFunction(plugins[i], functionName)
                && forall j :: 0 <= j < i ==> PluginFunction(plugins[j], functionName).None?
    ensures !IsNullOrWhiteSpace(pluginName) ==>
              (r.Some? <==> TryGetPlugin(plugins, pluginName.value).Some?
                            && PluginFunction(TryGetPlugin(plugins, pluginName.value).value, functionName).Some?)
    ensures !IsNullOrWhiteSpace(pluginName) && r.Some? ==>
              r == PluginFunction(TryGetPlugin(plugins, pluginName.value).value, functionName)
  {
    if IsNullOrWhiteSpace(pluginName) then
      match HolderIndex(plugins, functionName)
      case None => None
      case Some(i) => PluginFunction(plugins[i], functionName)
    else
      match TryGetPlugin(plugins, pluginName.value)
      case None => None
      case Some(p) => PluginFunction(p, functionName)
  }

  /** GetFunction: what TryGetFunction finds, or KeyNotFoundException when
      it finds nothing. */
  function GetFunction(plugins: seq<Plugin>, pluginName: Option<string>, functionName: string): (r: Result<KernelFunction, string>)
    ensures r.Ok? <==> TryGetFunction(plugins, pluginName, functionName).Some?
    ensures r.Ok? ==> TryGetFunction(plugins, pluginName, functionName) == Some(r.value)
    ensures r.Err? ==> r.error == KeyNotFoundMessage
  {
    match TryGetFunction(plugins, pluginName, functionName)
    case None => Err(KeyNotFoundMessage)
    case Some(f) => Ok(f)
  }

  // ---------------------------------------------------------------------
  // The Contains overloads

  /** Contains(plugin, functionName). */
  predicate ContainsFunctionName(p: Plugin, functionName: string)
    ensures ContainsFunctionName(p, functionName) <==> exists j :: 0 <= j < |p.functions| && p.functions[j].name == functionName
  {
    PluginFunction(p, functionName).Some?
  }

  /** Contains(plugin, function): the plugin's function of that name is this
      very function, not merely one with the same name. */
  predicate ContainsFunction(p: Plugin, f: KernelFunction)
    ensures ContainsFunction(p, f) ==> f in p.functions
    ensures ContainsFunction(p, f) <==>
              exists j :: 0 <= j < |p.functions| && p.functions[j] == f
                && forall k :: 0 <= k < j ==> p.functions[k].name != f.name
  {
    PluginFunction(p, f.name) == Some(f)
  }

  /** Contains(plugins, pluginName). */
  predicate ContainsPlugin(plugins: seq<Plugin>, pluginName: string)
    ensures ContainsPlugin(plugins, pluginName) <==> exists j :: 0 <= j < |plugins| && plugins[j].name == pluginName
  {
    TryGetPlugin(plugins, pluginName).Some?
  }

  /** In a plugin whose function names are distinct, holding a function and
      containing it are the same thing. */
  lemma ContainsFunctionDistinct(p: Plugin, f: KernelFunction)
    requires forall i, j :: 0 <= i < j < |p.functions| ==> p.functions[i].name != p.functions[j].name
    ensures ContainsFunction(p, f) <==> f in p.functions
  {
    if f in p.functions {
      var k :| 0 <= k < |p.functions| && p.functions[k] == f;
      var r := FunctionIndex(p.functions, f.name);
      assert r.Some? && p.functions[r.value].name == p.functions[k].name;
      assert r == Some(k);
    }
  }

  /** A different function that only shares the name is not contained. */
  lemma ContainsFunctionNeedsIdentity(f: KernelFunction, g: KernelFunction)
    requires f.name == g.name && f != g
    ensures !ContainsFunction(Plugin("p", "", [f]), g)
    ensures ContainsFunction(Plugin("p", "", [f]), f)
  {
    assert FunctionIndex([f], g.name) == Some(0);
  }

  // ---------------------------------------------------------------------
  // Which plugins a lookup consults

  /** A named lookup consults the named plugin only: it gives the same answer
      in a collection holding nothing but that plugin. */
  lemma NamedLookupOnlyThatPlugin(plugins: seq<Plugin>, pluginName: string, functionName: string)
    requires !IsNullOrWhiteSpace(Some(pluginName))
    requires TryGetPlugin(plugins, pluginName).Some?
    ensures TryGetFunction(plugins, Some(pluginName), functionName)
         == TryGetFunction([TryGetPlugin(plugins, pluginName).value], Some(pluginName), functionName)
  {
    var p := TryGetPlugin(plugins, pluginName).value;
    assert PluginIndex([p], pluginName) == Some(0);
  }

  /** A named lookup ignores every plugin of another name that is added
      before or after the ones it searches. */
  lemma NamedLookupIgnoresOthers(a: seq<Plugin>, b: seq<Plugin>, c: seq<Plugin>, pluginName: string, functionName: string)
    requires !IsNullOrWhiteSpace(Some(pluginName))
    requires forall i :: 0 <= i < |a| ==> a[i].name != pluginName
    requires forall i :: 0 <= i < |c| ==> c[i].name != pluginName
    ensures TryGetFunction(a + b + c, Some(pluginName), functionName) == TryGetFunction(b, Some(pluginName), functionName)
  {
    var all := a + b + c;
    var r := PluginIndex(b, pluginName);
    match r
    case None =>
      forall j | 0 <= j < |all| ensures all[j].name != pluginName {
        if j < |a| { assert all[j] == a[j]; }
        else if j < |a| + |b| { assert all[j] == b[j - |a|]; }
        else { assert all[j] == c[j - |a| - |b|]; }
      }
      assert PluginIndex(all, pluginName).None?;
    case Some(k) =>
      assert all[|a| + k] == b[k];
      forall j | 0 <= j < |a| + k ensures all[j].name != pluginName {
        if j < |a| { assert all[j] == a[j]; } else { assert all[j] == b[j - |a|]; }
      }
      assert PluginIndex(all, pluginName) == Some(|a| + k);
  }

  /** A blank lookup takes the first holder: plugins before it that lack the
      function are passed over, and whatever follows it is never reached. */
  lemma BlankLookupFirstWins(a: seq<Plugin>, p: Plugin, c: seq<Plugin>, pluginName: Option<string>, functionName: string)
    requires IsNullOrWhiteSpace(pluginName)
    requires forall i :: 0 <= i < |a| ==> !ContainsFunctionName(a[i], functionName)
    requires ContainsFunctionName(p, functionName)
    ensures TryGetFunction(a + [p] + c, pluginName, functionName) == PluginFunction(p, functionName)
  {
    var all := a + [p] + c;
    assert all[|a|] == p;
    forall j | 0 <= j < |a| ensures PluginFunction(all[j], functionName).None? {
      assert all[j] == a[j];
    }
    assert HolderIndex(all, functionName) == Some(|a|);
  }

  // ---------------------------------------------------------------------
  // Metadata

  function Metadata(p: Plugin, f: KernelFunction): FunctionMetadata {
    FunctionMetadata(p.name, f.name, f.description)
  }

  /** The metadata of one plugin's functions, in order. */
  function PluginMetadata(p: Plugin): (r: seq<FunctionMetadata>)
    ensures |r| == |p.functions|
    ensures forall j :: 0 <= j < |r| ==> r[j] == Metadata(p, p.functions[j])
  {
    seq(|p.functions|, j requires 0 <= j < |p.functions| => Metadata(p, p.functions[j]))
  }

  /** Reference definition: every plugin's metadata, plugin after plugin. */
  function Flatten(plugins: seq<Plugin>): seq<FunctionMetadata>
    decreases |plugins|
  {
    if plugins == [] then []
    else Flatten(plugins[..|plugins| - 1]) + PluginMetadata(plugins[|plugins| - 1])
  }

  /** GetFunctionsMetadata: the two nested loops over plugins and their
      functions. */
  method GetFunctionsMetadata(plugins: seq<Plugin>) returns (metadata: seq<FunctionMetadata>)
    ensures metadata == Flatten(plugins)
  {
    metadata := [];
    var i := 0;
    while i < |plugins|
      invariant 0 <= i <= |plugins|
      invariant metadata == Flatten(plugins[..i])
    {
      var p := plugins[i];
      var j := 0;
      while j < |p.functions|
        invariant 0 <= j <= |p.functions|
        invariant metadata == Flatten(plugins[..i]) + PluginMetadata(p)[..j]
      {
        metadata := metadata + [Metadata(p, p.functions[j])];
        j := j + 1;
      }
      assert PluginMetadata(p)[..j] == PluginMetadata(p);
      assert plugins[..i + 1][..i] == plugins[..i];
      i := i + 1;
    }
    assert plugins[..i] == plugins;
  }

  /** Number of functions in the first i plugins. */
  function Offset(plugins: seq<Plugin>, i: nat): nat
    requires i <= |plugins|
    decreases i
  {
    if i == 0 then 0 else Offset(plugins, i - 1) + |plugins[i - 1].functions|
  }

  /** One entry per function per plugin, plugin-major, each tagged with the
      name of the plugin that owns it. */
  lemma {:induction false} FlattenIndex(plugins: seq<Plugin>, i: nat, j: nat)
    requires i < |plugins| && j < |plugins[i].functions|
    ensures |Flatten(plugins)| == Offset(plugins, |plugins|)
    ensures Offset(plugins, i) + j < |Flatten(plugins)|
    ensures Flatten(plugins)[Offset(plugins, i) + j] == Metadata(plugins[i], plugins[i].functions[j])
    decreases |plugins|
  {
    var n := |plugins|;
    var init := plugins[..n - 1];
    OffsetPrefix(plugins, init, n - 1);
    FlattenLength(init);
    if i < n - 1 {
      assert init[i] == plugins[i];
      FlattenIndex(init, i, j);
      OffsetPrefix(plugins, init, i);
    }
  }

  lemma {:induction false} FlattenLength(plugins: seq<Plugin>)
    ensures |Flatten(plugins)| == Offset(plugins, |plugins|)
    decreases |plugins|
  {
    if plugins != [] {
      var init := plugins[..|plugins| - 1];
      FlattenLength(init);
      OffsetPrefix(plugins, init, |init|);
    }
  }

  /** Offsets only depend on the plugins before them. */
  lemma {:induction false} OffsetPrefix(plugins: seq<Plugin>, init: seq<Plugin>, i: nat)
    requires i <= |init| <= |plugins| && init == plugins[..|init|]
    ensures Offset(plugins, i) == Offset(init, i)
    decreases i
  {
    if i > 0 {
      OffsetPrefix(plugins, init, i - 1);
      assert init[i - 1] == plugins[i - 1];
    }
  }
}
