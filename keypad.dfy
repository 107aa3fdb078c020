/**
 * The keypad frequency table of the DTMF telephone keypad (ITU-T
 * Recommendation Q.23): every key sounds one frequency of the low group
 * (the key's row) together with one frequency of the high group (its column).
 */
module Keypad {

  /** Low-group frequencies in Hz, one per keypad row. */
  const LowGroup: seq<int> := [697, 770, 852, 941]

  /** High-group frequencies in Hz, one per keypad column. */
  const HighGroup: seq<int> := [1209, 1336, 1477, 1633]

  /** The keypad as rows of symbols; Layout[row][col] sounds LowGroup[row] and HighGroup[col]. */
  const Layout: seq<string> := ["123A", "456B", "789C", "*0#D"]

  /** True when c is one of the 16 keypad symbols. */
  predicate IsSymbol(c: char) {
    exists row, col | 0 <= row < 4 && 0 <= col < 4 :: Layout[row][col] == c
  }

  /**
   * Upper-cases a character. Only 'a'..'z' change, and of them exactly
   * 'a'..'d' land on a keypad symbol; every symbol is its own upper case.
   */
  function UpperCase(c: char): (u: char)
    ensures u != c ==> 'a' <= c <= 'z' && 'A' <= u <= 'Z'
    ensures IsSymbol(u) <==> IsSymbol(c) || 'a' <= c <= 'd'
  {
    if 'a' <= c <= 'z' then
      var u := (c as int - 32) as char;
      assert 'a' <= c <= 'd' ==> Layout[c as int - 'a' as int][3] == u;
      assert IsSymbol(u) ==> 'a' <= c <= 'd' by {
        if IsSymbol(u) {
          var row, col :| 0 <= row < 4 && 0 <= col < 4 && Layout[row][col] == u;
        }
      }
      u
    else c
  }

  /**
   * The tone pair for a key: the first character of the key, upper-cased,
   * selects a keypad symbol; anything else (including the empty key) gives
   * the empty list.
   */
  function DtmfFrequencies(key: string): (r: seq<int>)
    ensures r == [] <==> !(|key| > 0 && IsSymbol(UpperCase(key[0])))
    ensures r != [] ==>
      exists row, col | 0 <= row < 4 && 0 <= col < 4 ::
        Layout[row][col] == UpperCase(key[0]) && r == [LowGroup[row], HighGroup[col]]
  {
    if |key| == 0 then [] else
    match UpperCase(key[0])
    case '1' => assert Layout[0][0] == '1' && LowGroup[0] == 697 && HighGroup[0] == 1209; [697, 1209]
    case '2' => assert Layout[0][1] == '2' && LowGroup[0] == 697 && HighGroup[1] == 1336; [697, 1336]
    case '3' => assert Layout[0][2] == '3' && LowGroup[0] == 697 && HighGroup[2] == 1477; [697, 1477]
    case 'A' => assert Layout[0][3] == 'A' && LowGroup[0] == 697 && HighGroup[3] == 1633; [697, 1633]
    case '4' => assert Layout[1][0] == '4' && LowGroup[1] == 770 && HighGroup[0] == 1209; [770, 1209]
    case '5' => assert Layout[1][1] == '5' && LowGroup[1] == 770 && HighGroup[1] == 1336; [770, 1336]
    case '6' => assert Layout[1][2] == '6' && LowGroup[1] == 770 && HighGroup[2] == 1477; [770, 1477]
    case 'B' => assert Layout[1][3] == 'B' && LowGroup[1] == 770 && HighGroup[3] == 1633; [770, 1633]
    case '7' => assert Layout[2][0] == '7' && LowGroup[2] == 852 && HighGroup[0] == 1209; [852, 1209]
    case '8' => assert Layout[2][1] == '8' && LowGroup[2] == 852 && HighGroup[1] == 1336; [852, 1336]
    case '9' => assert Layout[2][2] == '9' && LowGroup[2] == 852 && HighGroup[2] == 1477; [852, 1477]
    case 'C' => assert Layout[2][3] == 'C' && LowGroup[2] == 852 && HighGroup[3] == 1633; [852, 1633]
    case '*' => assert Layout[3][0] == '*' && LowGroup[3] == 941 && HighGroup[0] == 1209; [941, 1209]
    case '0' => assert Layout[3][1] == '0' && LowGroup[3] == 941 && HighGroup[1] == 1336; [941, 1336]
    case '#' => assert Layout[3][2] == '#' && LowGroup[3] == 941 && HighGroup[2] == 1477; [941, 1477]
    case 'D' => assert Layout[3][3] == 'D' && LowGroup[3] == 941 && HighGroup[3] == 1633; [941, 1633]
    case _ => []
  }

  /** Each of the 16 keypad symbols sounds its row's low tone and its column's high tone. */
  lemma GridLookup(row: nat, col: nat)
    requires row < 4 && col < 4
    ensures DtmfFrequencies([Layout[row][col]]) == [LowGroup[row], HighGroup[col]]
  {
    var c := Layout[row][col];
    assert UpperCase(c) == c;
    assert IsSymbol(c);
    var r := DtmfFrequencies([c]);
    var row', col' :| 0 <= row' < 4 && 0 <= col' < 4 && Layout[row'][col'] == c && r == [LowGroup[row'], HighGroup[col']];
    LayoutInjective(row, col, row', col');
  }

  /** No symbol appears twice on the keypad. */
  lemma LayoutInjective(r1: nat, c1: nat, r2: nat, c2: nat)
    requires r1 < 4 && c1 < 4 && r2 < 4 && c2 < 4
    requires Layout[r1][c1] == Layout[r2][c2]
    ensures r1 == r2 && c1 == c2
  {
  }

  /** Only the first character of the key selects the tone. */
  lemma FirstCharacterOnly(key: string)
    requires |key| > 0
    ensures DtmfFrequencies(key) == DtmfFrequencies(key[..1])
  {
  }

  /** Letters select their tone case-insensitively. */
  lemma CaseInsensitive(key: string)
    requires |key| > 0 && 'a' <= key[0] <= 'z'
    ensures DtmfFrequencies(key) == DtmfFrequencies([(key[0] as int - 32) as char])
  {
  }

  /** Keys whose (upper-cased) first characters are different symbols sound different tone pairs. */
  lemma DistinctSymbolsDistinctTones(a: string, b: string)
    requires DtmfFrequencies(a) != [] && DtmfFrequencies(b) != []
    ensures DtmfFrequencies(a) == DtmfFrequencies(b) <==> UpperCase(a[0]) == UpperCase(b[0])
  {
    var ra, rb := DtmfFrequencies(a), DtmfFrequencies(b);
    var r1, c1 :| 0 <= r1 < 4 && 0 <= c1 < 4 && Layout[r1][c1] == UpperCase(a[0]) && ra == [LowGroup[r1], HighGroup[c1]];
    var r2, c2 :| 0 <= r2 < 4 && 0 <= c2 < 4 && Layout[r2][c2] == UpperCase(b[0]) && rb == [LowGroup[r2], HighGroup[c2]];
    if ra == rb {
      assert LowGroup[r1] == ra[0] == LowGroup[r2];
      assert HighGroup[c1] == ra[1] == HighGroup[c2];
    }
    if UpperCase(a[0]) == UpperCase(b[0]) {
      LayoutInjective(r1, c1, r2, c2);
    }
  }
}
