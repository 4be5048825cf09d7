/** A text data point of a stream, and the table that holds at most one
    such point per stream and timestamp. */
module DataPointString {
  import opened Wrappers
  import opened JavaText

  /** The longest text the `data` column admits; `add` checks it but keeps
      the text. */
  const MaxLength := 160

  /** The bean validation on `data`: between 1 and `MaxLength` characters.
      A save of a point that breaks it is refused with an exception. */
  predicate LengthValid(data: string)
  {
    1 <= |data| <= MaxLength
  }

  /** The `data_point_string` table: one text per (stream id, timestamp),
      which the unique constraint on those two columns guarantees. */
  class PointTable {
    var rows: map<(int, int), string>

    constructor ()
      ensures rows == map[]
    {
      rows := map[];
    }

    /** Inserting a row whose key is taken violates the constraint. */
    method Insert(stream: int, timestamp: int, data: string) returns (threw: bool)
      modifies this
      ensures threw <==> (stream, timestamp) in old(rows)
      ensures rows == if threw then old(rows) else old(rows)[(stream, timestamp) := data]
    {
      if (stream, timestamp) in rows {
        return true;
      }
      rows := rows[(stream, timestamp) := data];
      threw := false;
    }
  }

  class StringPoint {
    var stream: Option<int>
    var data: Option<string>
    var timestamp: int

    constructor (stream: Option<int>, data: Option<string>, timestamp: int)
      ensures this.stream == stream && this.data == data && this.timestamp == timestamp
    {
      this.stream := stream;
      this.data := data;
      this.timestamp := timestamp;
    }

    /** `add`: a point without a stream or data is not stored (null); any
        other is saved and returned, its text untouched whatever its length,
        since the shortened copy is thrown away. The save throws when the
        text is empty or longer than `MaxLength`, which the validation on
        the column refuses, or when it hits an existing (stream, timestamp). */
    method Add(table: PointTable) returns (r: StringPoint?, threw: bool)
      modifies table
      ensures data == old(data) && stream == old(stream) && timestamp == old(timestamp)
      ensures stream.None? || data.None? ==> r == null && !threw && table.rows == old(table.rows)
      ensures stream.Some? && data.Some? ==>
                (threw <==> !LengthValid(data.value) || (stream.value, timestamp) in old(table.rows))
                && (threw ==> table.rows == old(table.rows))
                && (!threw ==> r == this && table.rows == old(table.rows)[(stream.value, timestamp) := data.value])
    {
      if stream.Some? && data.Some? {
        if |data.value| > MaxLength {
          var _ := data.value[..MaxLength - 1];
        }
        if !LengthValid(data.value) {
          return null, true;
        }
        threw := table.Insert(stream.value, timestamp, data.value);
        if threw {
          return null, true;
        }
        return this, false;
      }
      return null, false;
    }

    /** `toTSV`: the timestamp's decimal text, a tab, and the data. */
    function ToTsv(): (r: string)
      reads this
      ensures r != [] && '\t' in r
    {
      LongText(timestamp) + "\t" + Show(data)
    }
  }

  lemma {:induction false} LongTextHasNoTab(n: int)
    ensures '\t' !in LongText(n)
  {
    var d := NatText(if n < 0 then -n else n);
    assert forall i | 0 <= i < |d| :: d[i] != '\t';
    if n < 0 {
      assert LongText(n) == "-" + d;
    } else {
      assert LongText(n) == d;
    }
  }

  /** A TSV line splits back at its first tab into the timestamp, which
      parses back as a long, and the data (the text "null" for none). */
  lemma TsvSplits(p: StringPoint)
    requires MinLong <= p.timestamp <= MaxLong
    ensures var t := p.ToTsv();
            var k := IndexOf(t, '\t');
            k == |LongText(p.timestamp)|
            && ParseLong(t[..k]) == Some(p.timestamp)
            && t[k + 1..] == Show(p.data)
  {
    var t := p.ToTsv();
    var n := LongText(p.timestamp);
    LongTextHasNoTab(p.timestamp);
    assert t[..|n|] == n && t[|n|] == '\t';
    assert '\t' !in t[..|n|];
    assert t[|n| + 1..] == Show(p.data);
    LongTextRoundTrip(p.timestamp);
  }
}
