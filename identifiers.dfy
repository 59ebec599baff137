/**
 * The whitelist checks applied to every name that is spliced into SQL text
 * (`sanitize_table_name`, `sanitize_column_name`) and to the sort direction
 * (`validate_sort_order`).
 */
module Identifiers {
  import opened Wrappers
  import opened Text

  /** A character `is_alphanumeric() || c == '_'` accepts. */
  predicate IsIdentifierChar(lib: Library, c: char) {
    lib.isAlphanumeric(c) || c == '_'
  }

  /** A name every character of which is alphanumeric or `_` (the empty name included). */
  predicate IsIdentifier(lib: Library, s: string) {
    forall i :: 0 <= i < |s| ==> IsIdentifierChar(lib, s[i])
  }

  /** The common check of both sanitizers: the name unchanged, or the given message. */
  function Sanitize(lib: Library, name: string, message: string): (r: Result<string>)
    ensures r.Ok? <==> IsIdentifier(lib, name)
    ensures r.Ok? ==> r.value == name
    ensures r.Err? ==> r.error == message
  {
    if !All(name, c => lib.isAlphanumeric(c) || c == '_') then Err(message)
    else Ok(name)
  }

  function SanitizeTableName(lib: Library, table: string): (r: Result<string>)
    ensures r.Ok? <==> IsIdentifier(lib, table)
    ensures r.Ok? ==> r.value == table
    ensures r.Err? ==> r.error == "Invalid table name"
  {
    Sanitize(lib, table, "Invalid table name")
  }

  function SanitizeColumnName(lib: Library, column: string): (r: Result<string>)
    ensures r.Ok? <==> IsIdentifier(lib, column)
    ensures r.Ok? ==> r.value == column
    ensures r.Err? ==> r.error == "Invalid column name"
  {
    Sanitize(lib, column, "Invalid column name")
  }

  /**
   * An accepted name holds no ASCII character other than letters, digits and `_`:
   * no whitespace, quote, `;`, `$`, `(`, `-` or any other punctuation.
   */
  lemma {:induction false} IdentifierIsSafe(lib: Library, s: string)
    requires lib.Valid()
    requires IsIdentifier(lib, s)
    ensures forall i :: 0 <= i < |s| && IsAscii(s[i]) ==> IsAsciiAlphanumeric(s[i]) || s[i] == '_'
    ensures '$' !in s && ' ' !in s && ';' !in s && '\'' !in s && '"' !in s
  {
    forall i | 0 <= i < |s| && IsAscii(s[i])
      ensures IsAsciiAlphanumeric(s[i]) || s[i] == '_'
    {
      assert IsIdentifierChar(lib, s[i]);
    }
  }

  /** The examples of a legitimate name and of injection attempts. */
  lemma IdentifierExamples(lib: Library)
    requires lib.Valid()
    ensures SanitizeTableName(lib, "users") == Ok("users")
    ensures SanitizeTableName(lib, "users; DROP TABLE x") == Err("Invalid table name")
    ensures SanitizeTableName(lib, "user name") == Err("Invalid table name")
    ensures SanitizeColumnName(lib, "customer_id") == Ok("customer_id")
    ensures SanitizeColumnName(lib, "") == Ok("")
  {
    assert IsIdentifierChar(lib, "users"[0]);
    assert !IsIdentifierChar(lib, "users; DROP TABLE x"[5]);
    assert !IsIdentifierChar(lib, "user name"[4]);
    assert IsIdentifier(lib, "users");
    assert IsIdentifier(lib, "customer_id");
  }

  // ---------------------------------------------------------------------------
  // Sort order

  const SortOrderError := "Invalid sort order. Use 'asc' or 'desc'"

  /** `validate_sort_order`: the uppercased direction when it is `ASC` or `DESC`. */
  function ValidateSortOrder(lib: Library, order: string): (r: Result<string>)
    ensures r.Ok? <==> ToUppercase(lib, order) in {"ASC", "DESC"}
    ensures r.Ok? ==> r.value == ToUppercase(lib, order)
    ensures r.Err? ==> r.error == SortOrderError
  {
    var upper := ToUppercase(lib, order);
    if upper == "ASC" || upper == "DESC" then Ok(upper) else Err(SortOrderError)
  }

  /** `a` equals `b` once both are uppercased in ASCII. */
  predicate EqualsIgnoringAsciiCase(a: string, b: string) {
    |a| == |b| && forall i :: 0 <= i < |a| ==> AsciiUppercase(a[i]) == AsciiUppercase(b[i])
  }

  /**
   * On ASCII input the direction is case-insensitive: it is accepted exactly when
   * it spells `asc` or `desc` in any mix of cases, and it comes back in capitals.
   */
  lemma {:induction false} SortOrderIsCaseInsensitive(lib: Library, order: string)
    requires lib.Valid()
    requires forall i :: 0 <= i < |order| ==> IsAscii(order[i])
    ensures ValidateSortOrder(lib, order).Ok? <==>
      EqualsIgnoringAsciiCase(order, "asc") || EqualsIgnoringAsciiCase(order, "desc")
    ensures EqualsIgnoringAsciiCase(order, "asc") ==> ValidateSortOrder(lib, order) == Ok("ASC")
    ensures EqualsIgnoringAsciiCase(order, "desc") ==> ValidateSortOrder(lib, order) == Ok("DESC")
  {
    var upper := ToUppercase(lib, order);
    assert |upper| == |order|;
    if EqualsIgnoringAsciiCase(order, "asc") {
      assert upper == "ASC";
    }
    if EqualsIgnoringAsciiCase(order, "desc") {
      assert upper == "DESC";
    }
    if upper == "ASC" {
      assert EqualsIgnoringAsciiCase(order, "asc") by {
        forall i | 0 <= i < 3 ensures AsciiUppercase(order[i]) == AsciiUppercase("asc"[i]) {
          assert AsciiUppercase(order[i]) == upper[i];
        }
      }
    }
    if upper == "DESC" {
      assert EqualsIgnoringAsciiCase(order, "desc") by {
        forall i | 0 <= i < 4 ensures AsciiUppercase(order[i]) == AsciiUppercase("desc"[i]) {
          assert AsciiUppercase(order[i]) == upper[i];
        }
      }
    }
  }
}
