/** The statement templates and the value formatter of the SQL adapter. */
module SqlUtil {
  import opened Options
  import opened Records

  predicate IsDigits(s: string) {
    forall i :: 0 <= i < |s| ==> '0' <= s[i] <= '9'
  }

  function DigitChar(d: nat): (c: char)
    requires d < 10
    ensures '0' <= c <= '9' && c as int - '0' as int == d
  {
    "0123456789"[d]
  }

  /** Decimal text of a natural number, without leading zeros. */
  function NatToString(n: nat): (s: string)
    ensures |s| > 0 && IsDigits(s)
    ensures |s| > 1 ==> s[0] != '0'
    decreases n
  {
    if n < 10 then [DigitChar(n)] else NatToString(n / 10) + [DigitChar(n % 10)]
  }

  /** Reads decimal digits back into a number. */
  function ParseNat(s: string): nat
    requires IsDigits(s)
    decreases |s|
  {
    if |s| == 0 then 0 else 10 * ParseNat(s[..|s| - 1]) + (s[|s| - 1] as int - '0' as int)
  }

  /** The decimal text of a number reads back as that number. */
  lemma {:induction false} ParseNatToString(n: nat)
    ensures ParseNat(NatToString(n)) == n
    decreases n
  {
    var s := NatToString(n);
    if n >= 10 {
      ParseNatToString(n / 10);
      assert s[..|s| - 1] == NatToString(n / 10);
    }
  }

  /** How a template literal renders an integer number. */
  function IntToString(i: int): string {
    if i < 0 then "-" + NatToString(-i) else NatToString(i)
  }

  /** How a template literal renders a scalar: strings as they are, numbers in decimal,
      booleans as `true`/`false`, null as `null`. */
  function RenderScalar(v: Scalar): string {
    match v
    case Str(s) => s
    case Num(n) => IntToString(n)
    case Bool(b) => if b then "true" else "false"
    case Null => "null"
  }

  /** `formatSqlValue`: a placeholder for quoting that returns its argument as is. */
  function FormatSqlValue(v: Scalar): (r: Scalar)
    ensures r == v
  {
    v
  }

  const InsertTarget: string := "into test_table (col_1, col_2) values ("
  const InsertPrefix: string := "insert " + InsertTarget

  /** The insert text for a skuId and a skuBatchId. */
  function InsertText(skuId: Option<string>, skuBatchId: string): string {
    InsertPrefix + RenderScalar(OptionalString(skuId)) + ", " + skuBatchId + ")"
  }

  /** `insertify`: the insert text for a warehouse row. It reads the row's skuId and
      skuBatchId only, so rows that differ in warehouse or any other field give the
      same text. */
  function Insertify(r: RecordWithWms): string {
    InsertText(r.skuId, r.skuBatchId)
  }

  /** The insert text spells out the row's skuId (`null` when it has none) and its
      skuBatchId between the fixed prefix and the closing parenthesis. */
  lemma InsertifyText(r: RecordWithWms)
    ensures Insertify(r) == "insert " + "into test_table (col_1, col_2) values ("
      + (match r.skuId case Some(s) => s case None => "null") + ", " + r.skuBatchId + ")"
  {
  }

  /** For one skuId, the skuBatchId can be read back from the insert text. */
  lemma InsertifyKeepsSkuBatchId(r1: RecordWithWms, r2: RecordWithWms)
    requires r1.skuId == r2.skuId && Insertify(r1) == Insertify(r2)
    ensures r1.skuBatchId == r2.skuBatchId
  {
    var p := InsertPrefix + RenderScalar(OptionalString(r1.skuId)) + ", ";
    var s1, s2 := InsertText(r1.skuId, r1.skuBatchId), InsertText(r2.skuId, r2.skuBatchId);
    assert s1 == p + r1.skuBatchId + ")" && s2 == p + r2.skuBatchId + ")";
    assert r1.skuBatchId == s1[|p|..|s1| - 1];
    assert r2.skuBatchId == s2[|p|..|s2| - 1];
  }

  /** `getUpdateForSkuBatchRecord`: an update of `table` with the assignment text
      `updates` for the row whose sku_batch_id is `skuBatchId`. */
  function GetUpdateForSkuBatchRecord(table: string, updates: string, skuBatchId: string): string {
    "update " + table + " set " + updates + " where sku_batch_id = '" + skuBatchId + "'"
  }

  /** Two updates with the same table and assignments are equal only for the same id:
      the id can be read back from the statement. */
  lemma GetUpdateKeepsSkuBatchId(table: string, updates: string, id1: string, id2: string)
    requires GetUpdateForSkuBatchRecord(table, updates, id1) == GetUpdateForSkuBatchRecord(table, updates, id2)
    ensures id1 == id2
  {
    var p := "update " + table + " set " + updates + " where sku_batch_id = '";
    var s1 := GetUpdateForSkuBatchRecord(table, updates, id1);
    var s2 := GetUpdateForSkuBatchRecord(table, updates, id2);
    assert s1 == p + id1 + "'" && s2 == p + id2 + "'";
    assert id1 == s1[|p|..|s1| - 1];
    assert id2 == s2[|p|..|s2| - 1];
  }

  /** For one table, the assignment text can be read back from the statement once the id
      is known. */
  lemma GetUpdateKeepsAssignments(table: string, u1: string, u2: string, id: string)
    requires GetUpdateForSkuBatchRecord(table, u1, id) == GetUpdateForSkuBatchRecord(table, u2, id)
    ensures u1 == u2
  {
    var p := "update " + table + " set ";
    var q := " where sku_batch_id = '" + id + "'";
    var s1, s2 := GetUpdateForSkuBatchRecord(table, u1, id), GetUpdateForSkuBatchRecord(table, u2, id);
    assert s1 == p + u1 + q && s2 == p + u2 + q;
    assert u1 == s1[|p|..|s1| - |q|];
    assert u2 == s2[|p|..|s2| - |q|];
  }

  /** Every update statement starts with the keyword `update`. */
  lemma GetUpdateStartsWithUpdate(table: string, updates: string, skuBatchId: string)
    ensures var s := GetUpdateForSkuBatchRecord(table, updates, skuBatchId);
      |s| >= 7 && s[..7] == "update "
  {
    var k := "update ";
    var rest := table + " set " + updates + " where sku_batch_id = '" + skuBatchId + "'";
    var s := GetUpdateForSkuBatchRecord(table, updates, skuBatchId);
    assert s == k + rest;
    assert s[..7] == k;
  }

  /** The assignment text sits in the statement right after `update <table> set `. */
  lemma GetUpdateHoldsAssignments(table: string, updates: string, skuBatchId: string)
    ensures var s := GetUpdateForSkuBatchRecord(table, updates, skuBatchId);
      var p := |table| + 12;
      p + |updates| <= |s| && s[p..p + |updates|] == updates
  {
    var head := "update " + table + " set ";
    var tail := " where sku_batch_id = '" + skuBatchId + "'";
    var s := GetUpdateForSkuBatchRecord(table, updates, skuBatchId);
    assert s == head + updates + tail;
    assert |head| == |table| + 12;
    assert s[|head|..|head| + |updates|] == updates;
  }

  /** Every insert statement starts with the keyword `insert`. */
  lemma InsertTextStartsWithInsert(skuId: Option<string>, skuBatchId: string)
    ensures var s := InsertText(skuId, skuBatchId); |s| >= 7 && s[..7] == "insert "
  {
    var s := InsertText(skuId, skuBatchId);
    var rest := RenderScalar(OptionalString(skuId)) + ", " + skuBatchId + ")";
    assert s == "insert " + (InsertTarget + rest);
  }

  /** Any text found in the assignments is found in the statement, shifted past
      `update <table> set `. */
  lemma GetUpdateHoldsPart(table: string, updates: string, skuBatchId: string, i: nat, part: string) returns (j: nat)
    requires i + |part| <= |updates| && updates[i..i + |part|] == part
    ensures j == |table| + 12 + i
    ensures var s := GetUpdateForSkuBatchRecord(table, updates, skuBatchId);
      j + |part| <= |s| && s[j..j + |part|] == part
  {
    GetUpdateHoldsAssignments(table, updates, skuBatchId);
    var s := GetUpdateForSkuBatchRecord(table, updates, skuBatchId);
    var p := |table| + 12;
    j := p + i;
    assert s[p + i..p + i + |part|] == s[p..p + |updates|][i..i + |part|];
  }
}
