/**
 * A column description as the schema reconciliation sees it, and the check
 * `diff` that decides whether two descriptions of one column diverge (so that
 * an ALTER is needed). The first argument plays Java's receiver `this`.
 *
 * The canonical data type enumeration is a type parameter `D`; its
 * `lengthNotRequired` flag is passed as a function, so every lemma here holds
 * for any enumeration and any choice of which members need no length.
 * Java's `dataType != info.dataType` compares enum constants, which is `!=` on `D`.
 */
module Pojo {
  import opened Wrappers
  import StrUtil

  /** A column: the fields `diff` reads, and two it deliberately ignores. */
  datatype ColumnInfo<D> = ColumnInfo(
    name: Option<string>,
    columnDef: Option<string>,   // default value
    dataType: Option<D>,         // canonical type, absent when no mapping is known
    size: Option<int>,
    digit: Option<int>,          // decimal digits
    isNullable: bool,
    comment: Option<string>
  )

  /** The name stage of the chain lets the comparison go on. */
  predicate NamesAgree<D>(col: ColumnInfo<D>, info: ColumnInfo<D>, ignoreName: bool) {
    ignoreName || StrUtil.EqualsIgnoreCase(col.name, info.name)
  }

  /** Both sides carry a canonical type. */
  predicate BothTyped<D>(col: ColumnInfo<D>, info: ColumnInfo<D>) {
    col.dataType.Some? && info.dataType.Some?
  }

  /**
   * Order-free description of divergence: the two columns diverge exactly
   * when one of these reasons holds.
   */
  predicate Diverges<D(==)>(col: ColumnInfo<D>, info: ColumnInfo<D>, ignoreName: bool,
                            lengthNotRequired: D -> bool)
  {
    || !NamesAgree(col, info, ignoreName)
    || col.columnDef != info.columnDef
    || (BothTyped(col, info) && col.dataType != info.dataType)
    || (col.dataType.Some? && !lengthNotRequired(col.dataType.value))
    || (!BothTyped(col, info) && (col.size != info.size || col.digit != info.digit))
  }

  /**
   * The short-circuit chain of `ColumnInfo.diff`: name (unless ignored),
   * default value, canonical type, the length-not-required shortcut, size,
   * digits. `true` means the columns diverge.
   */
  function Diff<D(==)>(col: ColumnInfo<D>, info: ColumnInfo<D>, ignoreName: bool,
                       lengthNotRequired: D -> bool): (r: bool)
    ensures r <==> Diverges(col, info, ignoreName, lengthNotRequired)
  {
    if !ignoreName && !StrUtil.EqualsIgnoreCase(col.name, info.name) then true
    else if col.columnDef != info.columnDef then true
    else if BothTyped(col, info) && col.dataType != info.dataType then true
    else if BothTyped(col, info) && lengthNotRequired(col.dataType.value) then false
    else if col.dataType.Some? && !lengthNotRequired(col.dataType.value) then true
    else if col.size != info.size then true
    else if col.digit != info.digit then true
    else false
  }

  /** With names compared, a case-insensitive name difference decides alone. */
  lemma NameMismatchDiverges<D>(col: ColumnInfo<D>, info: ColumnInfo<D>, lengthNotRequired: D -> bool)
    requires !StrUtil.EqualsIgnoreCase(col.name, info.name)
    ensures Diff(col, info, false, lengthNotRequired)
  {
  }

  /** With names ignored, neither column's name affects the result. */
  lemma IgnoredNamesAreIrrelevant<D>(col: ColumnInfo<D>, info: ColumnInfo<D>,
                                     n1: Option<string>, n2: Option<string>,
                                     lengthNotRequired: D -> bool)
    ensures Diff(col.(name := n1), info.(name := n2), true, lengthNotRequired)
         == Diff(col, info, true, lengthNotRequired)
  {
  }

  /** Differing defaults diverge, whatever the names and the other fields; `null` equals only `null`. */
  lemma DefaultMismatchDiverges<D>(col: ColumnInfo<D>, info: ColumnInfo<D>, ignoreName: bool,
                                   lengthNotRequired: D -> bool)
    requires col.columnDef != info.columnDef
    ensures Diff(col, info, ignoreName, lengthNotRequired)
  {
  }

  /** A missing default and an empty-string default are different defaults. */
  lemma NullDefaultIsNotEmptyDefault<D>(col: ColumnInfo<D>, info: ColumnInfo<D>, ignoreName: bool,
                                        lengthNotRequired: D -> bool)
    requires col.columnDef == None && info.columnDef == Some("")
    ensures Diff(col, info, ignoreName, lengthNotRequired)
    ensures Diff(info, col, ignoreName, lengthNotRequired)
  {
  }

  /** Two different canonical types diverge, whatever names, defaults, size and digits say. */
  lemma TypeMismatchDiverges<D>(col: ColumnInfo<D>, info: ColumnInfo<D>, ignoreName: bool,
                                lengthNotRequired: D -> bool)
    requires BothTyped(col, info) && col.dataType != info.dataType
    ensures Diff(col, info, ignoreName, lengthNotRequired)
  {
  }

  /** The same canonical type without a meaningful length agrees, whatever size and digits say. */
  lemma LengthNotRequiredAgrees<D>(col: ColumnInfo<D>, info: ColumnInfo<D>, ignoreName: bool,
                                   lengthNotRequired: D -> bool)
    requires NamesAgree(col, info, ignoreName) && col.columnDef == info.columnDef
    requires BothTyped(col, info) && col.dataType == info.dataType
    requires lengthNotRequired(col.dataType.value)
    ensures !Diff(col, info, ignoreName, lengthNotRequired)
  {
  }

  /**
   * A receiver whose canonical type needs a length always diverges, whatever
   * the other side's name, default, type, size and digits (including identical ones).
   */
  lemma LengthRequiredDiverges<D>(col: ColumnInfo<D>, info: ColumnInfo<D>, ignoreName: bool,
                                  lengthNotRequired: D -> bool)
    requires col.dataType.Some? && !lengthNotRequired(col.dataType.value)
    ensures Diff(col, info, ignoreName, lengthNotRequired)
  {
  }

  /**
   * When the type stage does not decide (receiver untyped, or of a type that
   * needs no length facing an untyped column), the result is exactly
   * "size differs or digits differ".
   */
  lemma SizeAndDigitDecide<D>(col: ColumnInfo<D>, info: ColumnInfo<D>, ignoreName: bool,
                              lengthNotRequired: D -> bool)
    requires NamesAgree(col, info, ignoreName) && col.columnDef == info.columnDef
    requires col.dataType.None? || (lengthNotRequired(col.dataType.value) && info.dataType.None?)
    ensures Diff(col, info, ignoreName, lengthNotRequired)
        <==> col.size != info.size || col.digit != info.digit
  {
  }

  /**
   * A column compared with itself agrees exactly when it has no canonical
   * type or one that needs no length.
   */
  lemma SelfDiff<D>(col: ColumnInfo<D>, ignoreName: bool, lengthNotRequired: D -> bool)
    ensures !Diff(col, col, ignoreName, lengthNotRequired)
        <==> col.dataType.None? || lengthNotRequired(col.dataType.value)
  {
  }

  /** Nullability and comment never make two columns diverge. */
  lemma NullableAndCommentIgnored<D>(col: ColumnInfo<D>, info: ColumnInfo<D>, ignoreName: bool,
                                     n1: bool, n2: bool, c1: Option<string>, c2: Option<string>,
                                     lengthNotRequired: D -> bool)
    ensures Diff(col.(isNullable := n1, comment := c1), info.(isNullable := n2, comment := c2),
                 ignoreName, lengthNotRequired)
         == Diff(col, info, ignoreName, lengthNotRequired)
  {
  }

  /**
   * The check is not symmetric: which column is the receiver matters as soon
   * as some canonical type needs a length.
   */
  lemma DiffIsNotSymmetric<D>(t: D, ignoreName: bool, lengthNotRequired: D -> bool)
    requires !lengthNotRequired(t)
    ensures exists col: ColumnInfo<D>, info: ColumnInfo<D> ::
      Diff(col, info, ignoreName, lengthNotRequired) != Diff(info, col, ignoreName, lengthNotRequired)
  {
    var typed := ColumnInfo(Some("id"), None, Some(t), Some(20), None, false, None);
    var untyped := typed.(dataType := None);
    assert Diff(typed, untyped, ignoreName, lengthNotRequired);
    assert !Diff(untyped, typed, ignoreName, lengthNotRequired);
  }

  /**
   * "Does not diverge" is not transitive: a typed column without a meaningful
   * length agrees with a column of the same type whatever its size, and that
   * one agrees with an untyped column of its own size, yet the first and the
   * last compare sizes and disagree.
   */
  lemma AgreementIsNotTransitive<D>(t: D, ignoreName: bool, lengthNotRequired: D -> bool)
    requires lengthNotRequired(t)
    ensures exists a: ColumnInfo<D>, b: ColumnInfo<D>, c: ColumnInfo<D> ::
      && !Diff(a, b, ignoreName, lengthNotRequired)
      && !Diff(b, c, ignoreName, lengthNotRequired)
      && Diff(a, c, ignoreName, lengthNotRequired)
  {
    var a := ColumnInfo(Some("status"), None, Some(t), Some(1), None, false, None);
    var b := a.(size := Some(2));
    var c := b.(dataType := None);
    assert !Diff(a, b, ignoreName, lengthNotRequired);
    assert !Diff(b, c, ignoreName, lengthNotRequired);
    assert Diff(a, c, ignoreName, lengthNotRequired);
  }
}
