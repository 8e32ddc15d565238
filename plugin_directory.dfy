/**
 * The repository's own plugin directory, app/plugins/, given to discovery:
 * which files register, under which keys, and which one is skipped.
 */
module PluginDirectory {
  import opened Text
  import opened Commands
  import opened Discovery

  /** The plugin files the repository's tests import, as a directory listing. */
  const RepositoryListing: seq<string> := [
    "__init__.py", "add_command.py", "subtract_command.py", "multiply_command.py",
    "divide_command.py", "mean_command.py", "standard_deviation_command.py"]

  /** No file is listed twice. */
  lemma RepositoryListingDistinct()
    ensures Distinct(RepositoryListing)
  {
    var l := RepositoryListing;
    assert l[2][0] != l[3][0];
  }

  /** Each plugin module and the one command class it defines. */
  const RepositoryModules: map<string, map<string, Command>> := map[
    "add_command" := map["AddCommand" := AddCommand],
    "subtract_command" := map["SubtractCommand" := SubtractCommand],
    "multiply_command" := map["MultiplyCommand" := MultiplyCommand],
    "divide_command" := map["DivideCommand" := DivideCommand],
    "mean_command" := map["MeanCommand" := MeanCommand],
    "standard_deviation_command" := map["StandardDeviationCommand" := StandardDeviationCommand]]

  /** The class name of a key with no upper-case letter: only its first letter is raised. */
  lemma ClassNameOf(key: string, first: char, rest: string, className: string)
    requires key == [first] + rest && Lower(rest) == rest
    requires className == [UpperChar(first)] + rest + "Command"
    ensures ExpectedClassName(key) == className
  {
    assert key[1..] == rest;
  }

  /** A plugin file whose module defines the expected class loads that class's command. */
  lemma LoadsAs(file: string, key: string, moduleName: string, className: string, command: Command)
    requires file == key + PluginSuffix && moduleName == key + "_command"
    requires ExpectedClassName(key) == className
    requires moduleName in RepositoryModules && RepositoryModules[moduleName] == map[className := command]
    ensures LoadPlugin(file, RepositoryModules) == Loaded(key, command)
  {
    LoadPluginOfKey(key, RepositoryModules);
  }

  /** A plugin file whose module lacks the expected class is skipped. */
  lemma MissesClass(file: string, key: string, moduleName: string, className: string)
    requires file == key + PluginSuffix && moduleName == key + "_command"
    requires ExpectedClassName(key) == className
    requires moduleName in RepositoryModules && className !in RepositoryModules[moduleName]
    ensures LoadPlugin(file, RepositoryModules) == ClassMissing(moduleName, className)
  {
    LoadPluginOfKey(key, RepositoryModules);
  }

  /** "__init__.py" does not end in the plugin suffix. */
  lemma InitIsNotAPlugin()
    ensures LoadPlugin("__init__.py", RepositoryModules) == NotAPlugin
  {
    assert !EndsWith("__init__.py", PluginSuffix);
  }

  lemma MeanClassName()
    ensures ExpectedClassName("mean") == "MeanCommand"
  {
    LowerOfNoUpper("ean");
    ClassNameOf("mean", 'm', "ean", "MeanCommand");
  }

  /** "mean_command.py" registers the mean plugin under the name it records itself. */
  lemma MeanPluginRegistered()
    ensures LoadPlugin("mean_command.py", RepositoryModules) == Loaded("mean", MeanCommand)
    ensures MeanCommand.OperationName() == "mean"
  {
    MeanClassName();
    LoadsAs("mean_command.py", "mean", "mean_command", "MeanCommand", MeanCommand);
  }

  /**
   * The capitalization rule lowers every letter after the first, so the class
   * looked up for "standard_deviation" is "Standard_deviation" + "Command",
   * not the class the module defines.
   */
  lemma StandardDeviationClassName()
    ensures ExpectedClassName("standard_deviation")[..9] == "Standard_"
    ensures ExpectedClassName("standard_deviation") != "StandardDeviationCommand"
  {
    assert ExpectedClassName("standard_deviation")[8] == '_';
  }

  /** So the standard deviation plugin is skipped. */
  lemma StandardDeviationPluginSkipped()
    ensures LoadPlugin("standard_deviation_command.py", RepositoryModules)
              == ClassMissing("standard_deviation_command", ExpectedClassName("standard_deviation"))
  {
    StandardDeviationClassName();
    MissesClass("standard_deviation_command.py", "standard_deviation", "standard_deviation_command",
                ExpectedClassName("standard_deviation"));
  }

  lemma AddClassName()
    ensures ExpectedClassName("add") == "AddCommand"
  {
    LowerOfNoUpper("dd");
    ClassNameOf("add", 'a', "dd", "AddCommand");
  }

  lemma AddPluginRegistered()
    ensures LoadPlugin("add_command.py", RepositoryModules) == Loaded("add", AddCommand)
  {
    AddClassName();
    LoadsAs("add_command.py", "add", "add_command", "AddCommand", AddCommand);
  }

  lemma SubtractClassName()
    ensures ExpectedClassName("subtract") == "SubtractCommand"
  {
    LowerOfNoUpper("ubtract");
    ClassNameOf("subtract", 's', "ubtract", "SubtractCommand");
  }

  lemma SubtractPluginRegistered()
    ensures LoadPlugin("subtract_command.py", RepositoryModules) == Loaded("subtract", SubtractCommand)
  {
    SubtractClassName();
    LoadsAs("subtract_command.py", "subtract", "subtract_command", "SubtractCommand", SubtractCommand);
  }

  lemma MultiplyClassName()
    ensures ExpectedClassName("multiply") == "MultiplyCommand"
  {
    LowerOfNoUpper("ultiply");
    ClassNameOf("multiply", 'm', "ultiply", "MultiplyCommand");
  }

  lemma MultiplyPluginRegistered()
    ensures LoadPlugin("multiply_command.py", RepositoryModules) == Loaded("multiply", MultiplyCommand)
  {
    MultiplyClassName();
    LoadsAs("multiply_command.py", "multiply", "multiply_command", "MultiplyCommand", MultiplyCommand);
  }

  lemma DivideClassName()
    ensures ExpectedClassName("divide") == "DivideCommand"
  {
    LowerOfNoUpper("ivide");
    ClassNameOf("divide", 'd', "ivide", "DivideCommand");
  }

  lemma DividePluginRegistered()
    ensures LoadPlugin("divide_command.py", RepositoryModules) == Loaded("divide", DivideCommand)
  {
    DivideClassName();
    LoadsAs("divide_command.py", "divide", "divide_command", "DivideCommand", DivideCommand);
  }

  /** The keys the repository's plugin files register under, in listing order. */
  const RepositoryKeys: seq<string> := ["add", "subtract", "multiply", "divide", "mean"]

  /** What each file of the listing comes to. */
  const RepositoryOutcomes: seq<PluginLoad> := [
    NotAPlugin, Loaded("add", AddCommand), Loaded("subtract", SubtractCommand),
    Loaded("multiply", MultiplyCommand), Loaded("divide", DivideCommand), Loaded("mean", MeanCommand),
    ClassMissing("standard_deviation_command", ExpectedClassName("standard_deviation"))]

  /** Loading file `i` of the listing gives outcome `i` above. */
  lemma RepositoryLoadAt(i: nat)
    requires i < |RepositoryListing|
    ensures LoadPlugin(RepositoryListing[i], RepositoryModules) == RepositoryOutcomes[i]
  {
    if i == 0 {
      InitIsNotAPlugin();
    } else if i == 1 {
      AddPluginRegistered();
    } else if i == 2 {
      SubtractPluginRegistered();
    } else if i == 3 {
      MultiplyPluginRegistered();
    } else if i == 4 {
      DividePluginRegistered();
    } else if i == 5 {
      MeanPluginRegistered();
    } else {
      StandardDeviationPluginSkipped();
    }
  }

  /** Loading the listing gives, file by file, the outcomes above. */
  lemma RepositoryLoads()
    ensures Loads(RepositoryListing, RepositoryModules) == RepositoryOutcomes
  {
    forall i | 0 <= i < |RepositoryListing|
      ensures Loads(RepositoryListing, RepositoryModules)[i] == RepositoryOutcomes[i]
    {
      RepositoryLoadAt(i);
    }
  }

  lemma LoadedKeysStep(outcomes: seq<PluginLoad>, k: nat)
    requires 0 < k <= |outcomes|
    ensures LoadedKeys(outcomes[..k])
              == LoadedKeys(outcomes[..k - 1]) + (if outcomes[k - 1].Loaded? then [outcomes[k - 1].key] else [])
  {
    assert outcomes[..k][..k - 1] == outcomes[..k - 1];
  }

  /** The outcomes register the five keys, in order. */
  lemma RepositoryOutcomesKeys()
    ensures LoadedKeys(RepositoryOutcomes) == RepositoryKeys
  {
    var o := RepositoryOutcomes;
    assert o[..0] == [];
    LoadedKeysStep(o, 1);
    LoadedKeysStep(o, 2);
    LoadedKeysStep(o, 3);
    LoadedKeysStep(o, 4);
    LoadedKeysStep(o, 5);
    LoadedKeysStep(o, 6);
    LoadedKeysStep(o, 7);
    assert o[..7] == o;
  }

  /** Of the repository's plugin files, all but the standard deviation one register, in listing order. */
  lemma RepositoryRegistry()
    ensures LoadedKeys(Loads(RepositoryListing, RepositoryModules)) == RepositoryKeys
  {
    RepositoryLoads();
    RepositoryOutcomesKeys();
  }

  /** Whatever order the directory lists the repository's plugin files in, the same five keys register. */
  lemma RepositoryKeysAnyOrder(listing: seq<string>)
    requires multiset(listing) == multiset(RepositoryListing)
    ensures forall k :: k in LoadedKeys(Loads(listing, RepositoryModules)) <==> k in RepositoryKeys
  {
    RepositoryRegistry();
    LoadedKeysAnyOrder(listing, RepositoryListing, RepositoryModules);
  }
}
