/** `implementation_module_to_name` (serialization_map.py): the short name
    of a backend module, such as `numpy` for `xbarray.implementations.numpy`.
    The module is represented by its `__name__`. */
module SerializationMap {
  import opened PyErrors

  /** The prefix every backend module name must start with. */
  const Prefix: string := "xbarray.implementations."

  /** The string whose length the source strips: the prefix without its
      final dot. */
  const StrippedPrefix: string := "xbarray.implementations"

  function InvalidModule(fullName: string): Error
  {
    ValueError("Module " + fullName + " is not a valid xbarray backend module.")
  }

  /** Once the prefix check has passed, the remainder the source forms
      begins with the dot that ends the prefix. */
  lemma {:induction false} RemainderStartsWithDot(fullName: string)
    requires Prefix <= fullName
    ensures |StrippedPrefix| < |fullName| && fullName[|StrippedPrefix|..][0] == '.'
  {
    assert fullName[|StrippedPrefix|] == Prefix[|StrippedPrefix|];
  }

  /** `implementation_module_to_name` as written: it strips only
      `len("xbarray.implementations")` characters, so every name that passes
      the prefix check still contains the dot and is rejected; no input
      reaches the `return`. */
  function ImplementationModuleToNameAsWritten(fullName: string): (r: Result<string>)
    ensures r == Err(InvalidModule(fullName))
  {
    if !(Prefix <= fullName) then Err(InvalidModule(fullName))
    else
      RemainderStartsWithDot(fullName);
      var submoduleName := fullName[|StrippedPrefix|..];
      if '.' in submoduleName then Err(InvalidModule(fullName))
      else Ok(submoduleName)
  }

  /** The module name `name_to_implementation_module` imports for a short
      name. */
  function ModuleNameOf(name: string): string
  {
    Prefix + name
  }

  /** `implementation_module_to_name` as intended: strip the whole prefix,
      dot included, and reject a remainder that names a nested module. It
      accepts exactly the backend modules one level below the prefix, and
      what it returns names the module it was given. */
  function ImplementationModuleToName(fullName: string): (r: Result<string>)
    ensures r.Ok? <==> Prefix <= fullName && '.' !in fullName[|Prefix|..]
    ensures r.Err? ==> r == Err(InvalidModule(fullName))
    ensures r.Ok? ==> '.' !in r.value && ModuleNameOf(r.value) == fullName
  {
    if !(Prefix <= fullName) then Err(InvalidModule(fullName))
    else
      var submoduleName := fullName[|Prefix|..];
      if '.' in submoduleName then Err(InvalidModule(fullName))
      else
        assert Prefix + submoduleName == fullName;
        Ok(submoduleName)
  }

  /** The intended function inverts `name_to_implementation_module`'s
      naming on every short name without a dot. */
  lemma {:induction false} ImplementationModuleToNameOfModuleName(name: string)
    requires '.' !in name
    ensures ImplementationModuleToName(ModuleNameOf(name)) == Ok(name)
  {
    assert ModuleNameOf(name)[|Prefix|..] == name;
  }

  /** The backend `xbarray.implementations.numpy`, rejected as written. */
  lemma NumpyRejectedAsWritten()
    ensures ImplementationModuleToNameAsWritten("xbarray.implementations.numpy").Err?
    ensures ImplementationModuleToName("xbarray.implementations.numpy") == Ok("numpy")
  {
    ImplementationModuleToNameOfModuleName("numpy");
    assert ModuleNameOf("numpy") == "xbarray.implementations.numpy";
  }
}
