/**
 * The inline option predicates of us_helpers.h. The message, enum and file
 * overloads read only the owning file's options, so each is stated once,
 * over the file.
 */
module OptionPredicates {
  import opened Descriptor

  /** Does a message class of this file keep track of unknown fields? */
  predicate HasUnknownFields(file: FileDescriptor)
  {
    file.options.optimizeFor != LiteRuntime
  }

  /** Does a message class have generated parsing and serialization methods? */
  predicate HasGeneratedMethods(file: FileDescriptor)
  {
    file.options.optimizeFor != CodeSize
  }

  predicate HasEqualsAndHashCode(file: FileDescriptor)
  {
    file.options.javaGenerateEqualsAndHash
  }

  /** HasDescriptorMethods, for a message, an enum or the file itself. */
  predicate HasDescriptorMethods(file: FileDescriptor)
  {
    file.options.optimizeFor != LiteRuntime
  }

  /** The lite runtime does not support nested builders. */
  predicate HasNestedBuilders(file: FileDescriptor)
  {
    file.options.optimizeFor != LiteRuntime
  }

  predicate HasGenericServices(file: FileDescriptor)
  {
    |file.services| > 0
    && file.options.optimizeFor != LiteRuntime
    && file.options.javaGenericServices
  }

  /**
   * Unknown-field tracking, descriptor methods and nested builders are one
   * switch, off exactly for the lite runtime; generated methods are off only
   * when optimizing for code size, so a lite file still has them.
   */
  lemma LiteRuntimeSwitches(file: FileDescriptor)
    ensures HasDescriptorMethods(file) == HasUnknownFields(file) == HasNestedBuilders(file)
    ensures !HasDescriptorMethods(file) ==> HasGeneratedMethods(file)
    ensures !HasGeneratedMethods(file) ==> HasDescriptorMethods(file)
  {
  }

  /** Generic services need a service, a non-lite runtime and the option set. */
  lemma GenericServicesNeedServices(file: FileDescriptor)
    ensures HasGenericServices(file)
        <==> |file.services| > 0 && HasDescriptorMethods(file) && file.options.javaGenericServices
  {
  }
}
