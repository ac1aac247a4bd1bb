/**
 * The default severity table the plugin seeds the error bucket with, and
 * the tree set it yields.
 */
module DefaultPatterns {
  import opened SortedNames

  // The checks the default table raises to ERROR, in ascending order.
  const AssertFalse := "AssertFalse"
  const BigDecimalLiteralDouble := "BigDecimalLiteralDouble"
  const ConstantField := "ConstantField"
  const ConstructorInvokesOverridable := "ConstructorInvokesOverridable"
  const ConstructorLeaksThis := "ConstructorLeaksThis"
  const EmptyTopLevelDeclaration := "EmptyTopLevelDeclaration"
  const FieldCanBeFinal := "FieldCanBeFinal"
  const FieldMissingNullable := "FieldMissingNullable"
  const FunctionalInterfaceClash := "FunctionalInterfaceClash"
  const LambdaFunctionalInterface := "LambdaFunctionalInterface"
  const MethodCanBeStatic := "MethodCanBeStatic"
  const MissingDefault := "MissingDefault"
  const MixedArrayDimensions := "MixedArrayDimensions"
  const MultiVariableDeclaration := "MultiVariableDeclaration"
  const MultipleTopLevelClasses := "MultipleTopLevelClasses"
  const NonCanonicalStaticMemberImport := "NonCanonicalStaticMemberImport"
  const PackageLocation := "PackageLocation"
  const ParameterNotNullable := "ParameterNotNullable"
  const PrimitiveArrayPassedToVarargsMethod := "PrimitiveArrayPassedToVarargsMethod"
  const PrivateConstructorForUtilityClass := "PrivateConstructorForUtilityClass"
  const RedundantThrows := "RedundantThrows"
  const RemoveUnusedImports := "RemoveUnusedImports"
  const ReturnMissingNullable := "ReturnMissingNullable"
  const StaticQualifiedUsingExpression := "StaticQualifiedUsingExpression"
  const StringEquality := "StringEquality"
  const SwitchDefault := "SwitchDefault"
  const ThrowsUncheckedException := "ThrowsUncheckedException"
  const TypeParameterNaming := "TypeParameterNaming"
  const UnnecessaryDefaultInEnumSwitch := "UnnecessaryDefaultInEnumSwitch"
  const UnnecessaryStaticImport := "UnnecessaryStaticImport"
  const WildcardImport := "WildcardImport"

  /** The names passed to `error`, in the order the default table calls it. */
  function DefaultErrorCalls(): seq<string>
  {
    [
    AssertFalse,
    BigDecimalLiteralDouble,
    ConstructorInvokesOverridable,
    EmptyTopLevelDeclaration,
    MissingDefault,
    NonCanonicalStaticMemberImport,
    PrimitiveArrayPassedToVarargsMethod,
    RedundantThrows,
    StaticQualifiedUsingExpression,
    StringEquality,
    UnnecessaryDefaultInEnumSwitch,
    WildcardImport,
    MultipleTopLevelClasses,
    MultiVariableDeclaration,
    MixedArrayDimensions,
    MethodCanBeStatic,
    PrivateConstructorForUtilityClass,
    PackageLocation,
    ConstantField,
    ReturnMissingNullable,
    FieldMissingNullable,
    ParameterNotNullable,
    ConstructorLeaksThis,
    MultiVariableDeclaration,
    FieldCanBeFinal,
    LambdaFunctionalInterface,
    PackageLocation,
    RemoveUnusedImports,
    ReturnMissingNullable,
    SwitchDefault,
    ThrowsUncheckedException,
    TypeParameterNaming,
    UnnecessaryStaticImport,
    WildcardImport,
    UnnecessaryDefaultInEnumSwitch,
    FunctionalInterfaceClash
    ]
  }

  /** The default error bucket in iteration order: the distinct names above, ascending. */
  function DefaultErrorNames(): seq<string>
  {
    [
    AssertFalse,
    BigDecimalLiteralDouble,
    ConstantField,
    ConstructorInvokesOverridable,
    ConstructorLeaksThis,
    EmptyTopLevelDeclaration,
    FieldCanBeFinal,
    FieldMissingNullable,
    FunctionalInterfaceClash,
    LambdaFunctionalInterface,
    MethodCanBeStatic,
    MissingDefault,
    MixedArrayDimensions,
    MultiVariableDeclaration,
    MultipleTopLevelClasses,
    NonCanonicalStaticMemberImport,
    PackageLocation,
    ParameterNotNullable,
    PrimitiveArrayPassedToVarargsMethod,
    PrivateConstructorForUtilityClass,
    RedundantThrows,
    RemoveUnusedImports,
    ReturnMissingNullable,
    StaticQualifiedUsingExpression,
    StringEquality,
    SwitchDefault,
    ThrowsUncheckedException,
    TypeParameterNaming,
    UnnecessaryDefaultInEnumSwitch,
    UnnecessaryStaticImport,
    WildcardImport
    ]
  }

  /**
   * The default table names 31 distinct checks in 36 calls, and the sorted
   * list above is exactly the tree set those calls build.
   */
  lemma DefaultErrorNamesSorted()
    ensures StrictlySorted(DefaultErrorNames())
    ensures Elements(DefaultErrorNames()) == Elements(DefaultErrorCalls())
    ensures |DefaultErrorCalls()| == 36 && |DefaultErrorNames()| == 31
    ensures |Elements(DefaultErrorCalls())| == 31
  {
    DefaultErrorNamesAscending();
    DefaultErrorNamesCover();
    SortedCardinality(DefaultErrorNames());
  }

  lemma DefaultErrorNamesCover()
    ensures Elements(DefaultErrorNames()) == Elements(DefaultErrorCalls())
  {
  }

  lemma DefaultErrorNamesAscending()
    ensures StrictlySorted(DefaultErrorNames())
  {
    var s := [AssertFalse];
    AscendingFrom1(s);
    s := s + [BigDecimalLiteralDouble, ConstantField, ConstructorInvokesOverridable, ConstructorLeaksThis, EmptyTopLevelDeclaration, FieldCanBeFinal, FieldMissingNullable, FunctionalInterfaceClash, LambdaFunctionalInterface, MethodCanBeStatic];
    AscendingFrom11(s);
    s := s + [MissingDefault, MixedArrayDimensions, MultiVariableDeclaration, MultipleTopLevelClasses, NonCanonicalStaticMemberImport, PackageLocation, ParameterNotNullable, PrimitiveArrayPassedToVarargsMethod, PrivateConstructorForUtilityClass, RedundantThrows];
    AscendingFrom21(s);
    s := s + [RemoveUnusedImports, ReturnMissingNullable, StaticQualifiedUsingExpression, StringEquality, SwitchDefault, ThrowsUncheckedException, TypeParameterNaming, UnnecessaryDefaultInEnumSwitch, UnnecessaryStaticImport, WildcardImport];
    assert s == DefaultErrorNames();
  }

  /** Names 1 to 10 follow name 0 in ascending order. */
  lemma AscendingFrom1(s: seq<string>)
    requires StrictlySorted(s) && s != [] && s[|s| - 1] == AssertFalse
    ensures StrictlySorted(s + [BigDecimalLiteralDouble, ConstantField, ConstructorInvokesOverridable, ConstructorLeaksThis, EmptyTopLevelDeclaration, FieldCanBeFinal, FieldMissingNullable, FunctionalInterfaceClash, LambdaFunctionalInterface, MethodCanBeStatic])
  {
    Ascending1();
    SnocSorted(s, BigDecimalLiteralDouble);
    Ascending2();
    SnocSorted(s + [BigDecimalLiteralDouble], ConstantField);
    Ascending3();
    SnocSorted(s + [BigDecimalLiteralDouble] + [ConstantField], ConstructorInvokesOverridable);
    Ascending4();
    SnocSorted(s + [BigDecimalLiteralDouble] + [ConstantField] + [ConstructorInvokesOverridable], ConstructorLeaksThis);
    Ascending5();
    SnocSorted(s + [BigDecimalLiteralDouble] + [ConstantField] + [ConstructorInvokesOverridable] + [ConstructorLeaksThis], EmptyTopLevelDeclaration);
    Ascending6();
    SnocSorted(s + [BigDecimalLiteralDouble] + [ConstantField] + [ConstructorInvokesOverridable] + [ConstructorLeaksThis] + [EmptyTopLevelDeclaration], FieldCanBeFinal);
    Ascending7();
    SnocSorted(s + [BigDecimalLiteralDouble] + [ConstantField] + [ConstructorInvokesOverridable] + [ConstructorLeaksThis] + [EmptyTopLevelDeclaration] + [FieldCanBeFinal], FieldMissingNullable);
    Ascending8();
    SnocSorted(s + [BigDecimalLiteralDouble] + [ConstantField] + [ConstructorInvokesOverridable] + [ConstructorLeaksThis] + [EmptyTopLevelDeclaration] + [FieldCanBeFinal] + [FieldMissingNullable], FunctionalInterfaceClash);
    Ascending9();
    SnocSorted(s + [BigDecimalLiteralDouble] + [ConstantField] + [ConstructorInvokesOverridable] + [ConstructorLeaksThis] + [EmptyTopLevelDeclaration] + [FieldCanBeFinal] + [FieldMissingNullable] + [FunctionalInterfaceClash], LambdaFunctionalInterface);
    Ascending10();
    SnocSorted(s + [BigDecimalLiteralDouble] + [ConstantField] + [ConstructorInvokesOverridable] + [ConstructorLeaksThis] + [EmptyTopLevelDeclaration] + [FieldCanBeFinal] + [FieldMissingNullable] + [FunctionalInterfaceClash] + [LambdaFunctionalInterface], MethodCanBeStatic);
    assert s + [BigDecimalLiteralDouble] + [ConstantField] + [ConstructorInvokesOverridable] + [ConstructorLeaksThis] + [EmptyTopLevelDeclaration] + [FieldCanBeFinal] + [FieldMissingNullable] + [FunctionalInterfaceClash] + [LambdaFunctionalInterface] + [MethodCanBeStatic] == s + [BigDecimalLiteralDouble, ConstantField, ConstructorInvokesOverridable, ConstructorLeaksThis, EmptyTopLevelDeclaration, FieldCanBeFinal, FieldMissingNullable, FunctionalInterfaceClash, LambdaFunctionalInterface, MethodCanBeStatic];
  }

  /** Names 11 to 20 follow name 10 in ascending order. */
  lemma AscendingFrom11(s: seq<string>)
    requires StrictlySorted(s) && s != [] && s[|s| - 1] == MethodCanBeStatic
    ensures StrictlySorted(s + [MissingDefault, MixedArrayDimensions, MultiVariableDeclaration, MultipleTopLevelClasses, NonCanonicalStaticMemberImport, PackageLocation, ParameterNotNullable, PrimitiveArrayPassedToVarargsMethod, PrivateConstructorForUtilityClass, RedundantThrows])
  {
    Ascending11();
    SnocSorted(s, MissingDefault);
    Ascending12();
    SnocSorted(s + [MissingDefault], MixedArrayDimensions);
    Ascending13();
    SnocSorted(s + [MissingDefault] + [MixedArrayDimensions], MultiVariableDeclaration);
    Ascending14();
    SnocSorted(s + [MissingDefault] + [MixedArrayDimensions] + [MultiVariableDeclaration], MultipleTopLevelClasses);
    Ascending15();
    SnocSorted(s + [MissingDefault] + [MixedArrayDimensions] + [MultiVariableDeclaration] + [MultipleTopLevelClasses], NonCanonicalStaticMemberImport);
    Ascending16();
    SnocSorted(s + [MissingDefault] + [MixedArrayDimensions] + [MultiVariableDeclaration] + [MultipleTopLevelClasses] + [NonCanonicalStaticMemberImport], PackageLocation);
    Ascending17();
    SnocSorted(s + [MissingDefault] + [MixedArrayDimensions] + [MultiVariableDeclaration] + [MultipleTopLevelClasses] + [NonCanonicalStaticMemberImport] + [PackageLocation], ParameterNotNullable);
    Ascending18();
    SnocSorted(s + [MissingDefault] + [MixedArrayDimensions] + [MultiVariableDeclaration] + [MultipleTopLevelClasses] + [NonCanonicalStaticMemberImport] + [PackageLocation] + [ParameterNotNullable], PrimitiveArrayPassedToVarargsMethod);
    Ascending19();
    SnocSorted(s + [MissingDefault] + [MixedArrayDimensions] + [MultiVariableDeclaration] + [MultipleTopLevelClasses] + [NonCanonicalStaticMemberImport] + [PackageLocation] + [ParameterNotNullable] + [PrimitiveArrayPassedToVarargsMethod], PrivateConstructorForUtilityClass);
    Ascending20();
    SnocSorted(s + [MissingDefault] + [MixedArrayDimensions] + [MultiVariableDeclaration] + [MultipleTopLevelClasses] + [NonCanonicalStaticMemberImport] + [PackageLocation] + [ParameterNotNullable] + [PrimitiveArrayPassedToVarargsMethod] + [PrivateConstructorForUtilityClass], RedundantThrows);
    assert s + [MissingDefault] + [MixedArrayDimensions] + [MultiVariableDeclaration] + [MultipleTopLevelClasses] + [NonCanonicalStaticMemberImport] + [PackageLocation] + [ParameterNotNullable] + [PrimitiveArrayPassedToVarargsMethod] + [PrivateConstructorForUtilityClass] + [RedundantThrows] == s + [MissingDefault, MixedArrayDimensions, MultiVariableDeclaration, MultipleTopLevelClasses, NonCanonicalStaticMemberImport, PackageLocation, ParameterNotNullable, PrimitiveArrayPassedToVarargsMethod, PrivateConstructorForUtilityClass, RedundantThrows];
  }

  /** Names 21 to 30 follow name 20 in ascending order. */
  lemma AscendingFrom21(s: seq<string>)
    requires StrictlySorted(s) && s != [] && s[|s| - 1] == RedundantThrows
    ensures StrictlySorted(s + [RemoveUnusedImports, ReturnMissingNullable, StaticQualifiedUsingExpression, StringEquality, SwitchDefault, ThrowsUncheckedException, TypeParameterNaming, UnnecessaryDefaultInEnumSwitch, UnnecessaryStaticImport, WildcardImport])
  {
    Ascending21();
    SnocSorted(s, RemoveUnusedImports);
    Ascending22();
    SnocSorted(s + [RemoveUnusedImports], ReturnMissingNullable);
    Ascending23();
    SnocSorted(s + [RemoveUnusedImports] + [ReturnMissingNullable], StaticQualifiedUsingExpression);
    Ascending24();
    SnocSorted(s + [RemoveUnusedImports] + [ReturnMissingNullable] + [StaticQualifiedUsingExpression], StringEquality);
    Ascending25();
    SnocSorted(s + [RemoveUnusedImports] + [ReturnMissingNullable] + [StaticQualifiedUsingExpression] + [StringEquality], SwitchDefault);
    Ascending26();
    SnocSorted(s + [RemoveUnusedImports] + [ReturnMissingNullable] + [StaticQualifiedUsingExpression] + [StringEquality] + [SwitchDefault], ThrowsUncheckedException);
    Ascending27();
    SnocSorted(s + [RemoveUnusedImports] + [ReturnMissingNullable] + [StaticQualifiedUsingExpression] + [StringEquality] + [SwitchDefault] + [ThrowsUncheckedException], TypeParameterNaming);
    Ascending28();
    SnocSorted(s + [RemoveUnusedImports] + [ReturnMissingNullable] + [StaticQualifiedUsingExpression] + [StringEquality] + [SwitchDefault] + [ThrowsUncheckedException] + [TypeParameterNaming], UnnecessaryDefaultInEnumSwitch);
    Ascending29();
    SnocSorted(s + [RemoveUnusedImports] + [ReturnMissingNullable] + [StaticQualifiedUsingExpression] + [StringEquality] + [SwitchDefault] + [ThrowsUncheckedException] + [TypeParameterNaming] + [UnnecessaryDefaultInEnumSwitch], UnnecessaryStaticImport);
    Ascending30();
    SnocSorted(s + [RemoveUnusedImports] + [ReturnMissingNullable] + [StaticQualifiedUsingExpression] + [StringEquality] + [SwitchDefault] + [ThrowsUncheckedException] + [TypeParameterNaming] + [UnnecessaryDefaultInEnumSwitch] + [UnnecessaryStaticImport], WildcardImport);
    assert s + [RemoveUnusedImports] + [ReturnMissingNullable] + [StaticQualifiedUsingExpression] + [StringEquality] + [SwitchDefault] + [ThrowsUncheckedException] + [TypeParameterNaming] + [UnnecessaryDefaultInEnumSwitch] + [UnnecessaryStaticImport] + [WildcardImport] == s + [RemoveUnusedImports, ReturnMissingNullable, StaticQualifiedUsingExpression, StringEquality, SwitchDefault, ThrowsUncheckedException, TypeParameterNaming, UnnecessaryDefaultInEnumSwitch, UnnecessaryStaticImport, WildcardImport];
  }

  lemma Ascending1() ensures Less(AssertFalse, BigDecimalLiteralDouble) { LessAt(AssertFalse, BigDecimalLiteralDouble, 0); }
  lemma Ascending2() ensures Less(BigDecimalLiteralDouble, ConstantField) { LessAt(BigDecimalLiteralDouble, ConstantField, 0); }
  lemma Ascending3() ensures Less(ConstantField, ConstructorInvokesOverridable) { LessAt(ConstantField, ConstructorInvokesOverridable, 5); }
  lemma Ascending4() ensures Less(ConstructorInvokesOverridable, ConstructorLeaksThis) { LessAt(ConstructorInvokesOverridable, ConstructorLeaksThis, 11); }
  lemma Ascending5() ensures Less(ConstructorLeaksThis, EmptyTopLevelDeclaration) { LessAt(ConstructorLeaksThis, EmptyTopLevelDeclaration, 0); }
  lemma Ascending6() ensures Less(EmptyTopLevelDeclaration, FieldCanBeFinal) { LessAt(EmptyTopLevelDeclaration, FieldCanBeFinal, 0); }
  lemma Ascending7() ensures Less(FieldCanBeFinal, FieldMissingNullable) { LessAt(FieldCanBeFinal, FieldMissingNullable, 5); }
  lemma Ascending8() ensures Less(FieldMissingNullable, FunctionalInterfaceClash) { LessAt(FieldMissingNullable, FunctionalInterfaceClash, 1); }
  lemma Ascending9() ensures Less(FunctionalInterfaceClash, LambdaFunctionalInterface) { LessAt(FunctionalInterfaceClash, LambdaFunctionalInterface, 0); }
  lemma Ascending10() ensures Less(LambdaFunctionalInterface, MethodCanBeStatic) { LessAt(LambdaFunctionalInterface, MethodCanBeStatic, 0); }
  lemma Ascending11() ensures Less(MethodCanBeStatic, MissingDefault) { LessAt(MethodCanBeStatic, MissingDefault, 1); }
  lemma Ascending12() ensures Less(MissingDefault, MixedArrayDimensions) { LessAt(MissingDefault, MixedArrayDimensions, 2); }
  lemma Ascending13() ensures Less(MixedArrayDimensions, MultiVariableDeclaration) { LessAt(MixedArrayDimensions, MultiVariableDeclaration, 1); }
  lemma Ascending14() ensures Less(MultiVariableDeclaration, MultipleTopLevelClasses) { LessAt(MultiVariableDeclaration, MultipleTopLevelClasses, 5); }
  lemma Ascending15() ensures Less(MultipleTopLevelClasses, NonCanonicalStaticMemberImport) { LessAt(MultipleTopLevelClasses, NonCanonicalStaticMemberImport, 0); }
  lemma Ascending16() ensures Less(NonCanonicalStaticMemberImport, PackageLocation) { LessAt(NonCanonicalStaticMemberImport, PackageLocation, 0); }
  lemma Ascending17() ensures Less(PackageLocation, ParameterNotNullable) { LessAt(PackageLocation, ParameterNotNullable, 2); }
  lemma Ascending18() ensures Less(ParameterNotNullable, PrimitiveArrayPassedToVarargsMethod) { LessAt(ParameterNotNullable, PrimitiveArrayPassedToVarargsMethod, 1); }
  lemma Ascending19() ensures Less(PrimitiveArrayPassedToVarargsMethod, PrivateConstructorForUtilityClass) { LessAt(PrimitiveArrayPassedToVarargsMethod, PrivateConstructorForUtilityClass, 3); }
  lemma Ascending20() ensures Less(PrivateConstructorForUtilityClass, RedundantThrows) { LessAt(PrivateConstructorForUtilityClass, RedundantThrows, 0); }
  lemma Ascending21() ensures Less(RedundantThrows, RemoveUnusedImports) { LessAt(RedundantThrows, RemoveUnusedImports, 2); }
  lemma Ascending22() ensures Less(RemoveUnusedImports, ReturnMissingNullable) { LessAt(RemoveUnusedImports, ReturnMissingNullable, 2); }
  lemma Ascending23() ensures Less(ReturnMissingNullable, StaticQualifiedUsingExpression) { LessAt(ReturnMissingNullable, StaticQualifiedUsingExpression, 0); }
  lemma Ascending24() ensures Less(StaticQualifiedUsingExpression, StringEquality) { LessAt(StaticQualifiedUsingExpression, StringEquality, 2); }
  lemma Ascending25() ensures Less(StringEquality, SwitchDefault) { LessAt(StringEquality, SwitchDefault, 1); }
  lemma Ascending26() ensures Less(SwitchDefault, ThrowsUncheckedException) { LessAt(SwitchDefault, ThrowsUncheckedException, 0); }
  lemma Ascending27() ensures Less(ThrowsUncheckedException, TypeParameterNaming) { LessAt(ThrowsUncheckedException, TypeParameterNaming, 1); }
  lemma Ascending28() ensures Less(TypeParameterNaming, UnnecessaryDefaultInEnumSwitch) { LessAt(TypeParameterNaming, UnnecessaryDefaultInEnumSwitch, 0); }
  lemma Ascending29() ensures Less(UnnecessaryDefaultInEnumSwitch, UnnecessaryStaticImport) { LessAt(UnnecessaryDefaultInEnumSwitch, UnnecessaryStaticImport, 11); }
  lemma Ascending30() ensures Less(UnnecessaryStaticImport, WildcardImport) { LessAt(UnnecessaryStaticImport, WildcardImport, 0); }
}
