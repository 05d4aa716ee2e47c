# Column-equivalence check of the entity-to-table schema reconciliation

spring-web-plus reconciles the database schema with the schema its entity
classes declare when the application starts. For each column, one check
decides whether the live column and the declared column still agree or an
ALTER is needed: `ColumnInfo.diff(info, ignoreName)`. This project models that
check in Dafny and proves what it does, branch by branch and as a whole.

`diff` is a short-circuit chain. It is tried in this order:

1. Names are compared case-insensitively, unless `ignoreName` is set.
2. Default values are compared null-safely.
3. Canonical data types are compared, and the `lengthNotRequired` shortcut may decide.
4. A receiver whose type needs a length makes the columns diverge.
5. Sizes are compared null-safely, then decimal digits.

Files:

- `wrappers.dfy`: `Option`, standing for Java's nullable references.
- `str_util.dfy`: ASCII lower-casing and the null-safe, case-insensitive name
  comparison (hutool's `StrUtil.equalsIgnoreCase`).
- `column_info.dfy`: the column record `ColumnInfo`, the check `Diff`, an
  order-free reference description `Diverges`, and the lemmas.

Modelling choices:

- The canonical type enumeration (`DataType`) is not part of this model. It is
  a type parameter `D`, and its flag `lengthNotRequired` is a function
  parameter. So every lemma holds for any enumeration and any choice of flags.
- The receiver `this` is the first argument `col` of `Diff`.
- Null-safe equality (hutool's `ObjectUtil.equals`) on strings and integers is
  equality of `Option` values: null equals only null.
- `size` and `digit` are `Option<int>`. They are only compared for equality,
  so their Java widths do not matter. If `size` is a primitive in hutool's
  `Column`, it is simply never `None`.
- `isNullable` and `comment` are in the record only to state that `diff` ignores them.

Lines 45-47 of ColumnInfo.java return `true` whenever the receiver's canonical
type needs a length. That includes a column with the same type, size and
digits on the other side. `SelfDiff` states the consequence: a column compared
with itself diverges exactly when its type needs a length.

## Model

| member | source | states |
|---|---|---|
| `Pojo.Diff` | spring-web-plus-starter/src/main/java/com/github/apengda/springwebplus/starter/db/pojo/ColumnInfo.java:27-57 | The chain returns true exactly when some divergence reason holds: names differ (unless ignored), defaults differ, both typed with different types, the receiver's type needs a length, or not both typed and size or digits differ |
| `Pojo.NameMismatchDiverges` | spring-web-plus-starter/src/main/java/com/github/apengda/springwebplus/starter/db/pojo/ColumnInfo.java:29-31 | With names compared, names that differ case-insensitively make the columns diverge, whatever the other fields hold |
| `Pojo.IgnoredNamesAreIrrelevant` | spring-web-plus-starter/src/main/java/com/github/apengda/springwebplus/starter/db/pojo/ColumnInfo.java:29 | With `ignoreName` set, replacing either column's name never changes the result |
| `Pojo.DefaultMismatchDiverges` | spring-web-plus-starter/src/main/java/com/github/apengda/springwebplus/starter/db/pojo/ColumnInfo.java:33-35 | Differing default values make the columns diverge, whatever the names and the other fields hold |
| `Pojo.NullDefaultIsNotEmptyDefault` | spring-web-plus-starter/src/main/java/com/github/apengda/springwebplus/starter/db/pojo/ColumnInfo.java:33-35 | A null default and an empty-string default diverge, in either order, whatever the names hold |
| `Pojo.TypeMismatchDiverges` | spring-web-plus-starter/src/main/java/com/github/apengda/springwebplus/starter/db/pojo/ColumnInfo.java:37-40 | Two present and different canonical types diverge, whatever names, defaults, size and digits hold |
| `Pojo.LengthNotRequiredAgrees` | spring-web-plus-starter/src/main/java/com/github/apengda/springwebplus/starter/db/pojo/ColumnInfo.java:41-43 | Once name and default pass, the same canonical type that needs no length agrees, whatever size and digits |
| `Pojo.LengthRequiredDiverges` | spring-web-plus-starter/src/main/java/com/github/apengda/springwebplus/starter/db/pojo/ColumnInfo.java:45-47 | A receiver type that needs a length diverges, whatever the other column's name, default, type, size and digits |
| `Pojo.SizeAndDigitDecide` | spring-web-plus-starter/src/main/java/com/github/apengda/springwebplus/starter/db/pojo/ColumnInfo.java:49-56 | Once name and default pass, with an untyped receiver, or a receiver typed without length facing an untyped column, the result is exactly "size differs or digits differ" |
| `Pojo.SelfDiff` | spring-web-plus-starter/src/main/java/com/github/apengda/springwebplus/starter/db/pojo/ColumnInfo.java:27-57 | A column compared with itself agrees exactly when its type is absent or needs no length |
| `Pojo.NullableAndCommentIgnored` | spring-web-plus-starter/src/main/java/com/github/apengda/springwebplus/starter/db/pojo/ColumnInfo.java:27-57 | Changing nullability or comment on either side never changes the result |
| `Pojo.DiffIsNotSymmetric` | spring-web-plus-starter/src/main/java/com/github/apengda/springwebplus/starter/db/pojo/ColumnInfo.java:45-47 | When some type needs a length, there are two columns whose result depends on which one is the receiver |
| `Pojo.AgreementIsNotTransitive` | spring-web-plus-starter/src/main/java/com/github/apengda/springwebplus/starter/db/pojo/ColumnInfo.java:37-56 | When some type needs no length, there are columns a, b, c where a agrees with b and b agrees with c, yet a diverges from c |
| `StrUtil.EqualsIgnoreCase` | spring-web-plus-starter/src/main/java/com/github/apengda/springwebplus/starter/db/pojo/ColumnInfo.java:29 | Null equals only null; two strings are equal exactly when they have the same length and agree character by character after lower-casing |
| `StrUtil.EqualsIgnoreCaseIsEquivalence` | spring-web-plus-starter/src/main/java/com/github/apengda/springwebplus/starter/db/pojo/ColumnInfo.java:29 | The name comparison is reflexive, symmetric and transitive |
| `StrUtil.ToLower` | spring-web-plus-starter/src/main/java/com/github/apengda/springwebplus/starter/db/pojo/ColumnInfo.java:29 | Lower-casing keeps the length and lower-cases each character in place |
| `StrUtil.LowerChar` | spring-web-plus-starter/src/main/java/com/github/apengda/springwebplus/starter/db/pojo/ColumnInfo.java:29 | The result is never an ASCII capital; capitals become their small letters and every other character is unchanged |
| `StrUtil.ToLowerIdempotent` | spring-web-plus-starter/src/main/java/com/github/apengda/springwebplus/starter/db/pojo/ColumnInfo.java:29 | Lower-casing twice is the same as lower-casing once |
| `StrUtil.EqualsIgnoreCaseOfLowered` | spring-web-plus-starter/src/main/java/com/github/apengda/springwebplus/starter/db/pojo/ColumnInfo.java:29 | A string compares equal to its own lower-cased form |

## Left out

- `ColumnInfo.of` (ColumnInfo.java lines 16-20) copies properties by reflection. Reflection is not modelled. The accessors Lombok generates are field reads here.
- `Pojo.Diff`: in Java a null `info` throws NullPointerException (line 29, or line 33 when `ignoreName` is set); the model's `info` is a value and is never null, so that error path is not modelled.
- `StrUtil.EqualsIgnoreCase`: case folding covers ASCII letters only. Java's `String.equalsIgnoreCase` also folds non-ASCII letters; that is not captured.
- hutool's `ObjectUtil.equals` compares `BigDecimal` values by `compareTo`. No field `diff` reads is a `BigDecimal`, so plain equality is used.
- The `DataType` enumeration and its `lengthNotRequired` table are not part of this model. Both stay parameters.
- The other fields of hutool's `Column` are not part of this model: table name, JDBC type code, type name, auto-increment and primary-key flags. `diff` does not read them.
- `DbTableInit` (startup runner, schema check and SQL bootstrap execution) is database I/O. The routines it calls are not part of this model.
- `WebMvcConfig`, `DbFieldFillHandler`, `MysqlDataTypeConverter` and `SysRequestErrorLog` are framework wiring, a reflection hook, a constant and a persistence entity. None of them is modelled.
