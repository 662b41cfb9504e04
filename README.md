# Project category classification

This is a Dafny model of the `Category` enumeration. It classifies a project into one of ten
domains: admin tools, chat, developer tools, economy, gameplay, games, protection, role
playing, world management and miscellaneous. An eleventh value, `Undefined`, is the fallback.
The enumeration has three total conversions, none of which can fail:

- a name becomes a category by exact, case-sensitive match, and any other name becomes
  `Undefined`;
- a byte id `0..=9` becomes a category, and any other byte becomes `Undefined`;
- a category goes back to its id (`Undefined` is 10) and to its name.

It also has two printed forms. `Display` prints the bare name. `Debug` prints
`Category { id: <id>, name: <name> }`.

Layout:

- `meta.dfy`, module `Meta`: the `u8` byte type, the `Category` datatype, the four
  conversions, `Display` and `Debug`, and the lemmas about them. `NameTable` is a reference
  table listing the ten names in id order. The conversions are specified against it.
- `decimal.dfy`, module `Decimal`: the decimal spelling that `{}` gives an unsigned integer
  (`ToDecimal`). `ValueOf` reads digits back, and it is the inverse `ToDecimal` is proved
  against. `Debug` uses `ToDecimal` to print the id.

## Model

| member | source | states |
|---|---|---|
| `Meta.FromString` | src/project/meta.rs:19-33 | The result is `Undefined` exactly when the name is not one of the ten table names. Otherwise the result is the category whose table entry, at its id, is that exact name. |
| `Meta.FromId` | src/project/meta.rs:35-49 | The result is `Undefined` exactly when the id is 10 or more. Otherwise the table entry at that id is the result's name. |
| `Meta.ToId` | src/project/meta.rs:51-65 | Every id is at most 10, and the id is 10 exactly for `Undefined`. |
| `Meta.AsString` | src/project/meta.rs:67-81 | The name is one of eleven fixed literals. A named category gets its table entry at its own id; `Undefined` gets "Undefined". |
| `Meta.Display` | src/project/meta.rs:90-94 | `Display` prints exactly the category's name, and `FromString` reads that output back as the same category. |
| `Meta.IdRoundTrip` | src/project/meta.rs:35-65 | `FromId(ToId(c)) == c` for every category, `Undefined` included. |
| `Meta.ToIdFromId` | src/project/meta.rs:35-65 | For ids up to 9, `FromId` followed by `ToId` gives the id back. For ids of 10 or more it gives 10. |
| `Meta.ToIdInjective` | src/project/meta.rs:51-65 | Distinct categories have distinct ids. |
| `Meta.NameRoundTrip` | src/project/meta.rs:19-33 | `FromString(AsString(c)) == c` for every category. For `Undefined` this holds only because "Undefined" falls through to the fallback arm. |
| `Meta.AsStringInjective` | src/project/meta.rs:67-81 | Distinct categories have distinct names. |
| `Meta.FromStringIsExact` | src/project/meta.rs:20-31 | A wrong case, a leading or trailing space, the empty string and "Undefined" all give `Undefined`. |
| `Meta.DebugIdDigits` | src/project/meta.rs:86 | The id field of `Debug(c)`, between the prefix and ", name: ", is exactly one digit for a named category and exactly "10" for `Undefined`. |
| `Meta.Debug` | src/project/meta.rs:84-88 | The output starts with "Category { id: " and ends with ", name: ", the name and " }". Between them is a field of decimal digits with no leading zero, which reads back as the category's id. |
| `Meta.FormatEconomy` | src/project/meta.rs:84-94 | `Economy` prints as "Category { id: 3, name: Economy }" under `Debug` and as "Economy" under `Display`. |
| `Meta.FormatUndefined` | src/project/meta.rs:84-94 | `Undefined` prints as "Category { id: 10, name: Undefined }" under `Debug` and as "Undefined" under `Display`. |
| `Meta.DebugInjective` | src/project/meta.rs:84-88 | Distinct categories produce distinct `Debug` strings. |
| `Decimal.ToDecimal` | src/project/meta.rs:86 | `{}` spells the id in decimal: the result is non-empty and all digits, it is one character exactly when the value is below 10, and it has no leading zero. |
| `Decimal.ValueOfToDecimal` | src/project/meta.rs:86 | Reading the printed digits back gives the number that was printed. |
| `Decimal.ToDecimalInjective` | src/project/meta.rs:86 | Distinct numbers print as distinct digit strings. |

## Left out

- The `Formatter` machinery and the `fmt::Result` error path of `write!` are left out. Only
  the string each `fmt` produces is modelled.
- `#[derive(Clone, Copy)]` is left out because Dafny datatypes are already values.
- `src/project/meta.rs` defines only `Category`, so no other enumeration is modelled.
- `ToDecimal` covers only the digits that `{}` prints for an unsigned integer. Width, fill
  and other format options are not modelled, since the source uses none of them.
