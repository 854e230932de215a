/** A pass told from the outside: which rows were sent, which were refused, and what that
    makes of the table. */
module RelayReport {
  import opened Seqs
  import opened Outbox
  import opened RelayPass

  /** The rows the broker acknowledged, group after group. */
  function SentRows(groups: seq<seq<Row>>, ok: Msg -> bool): seq<Row> {
    if groups == [] then []
    else
      var last := groups[|groups| - 1];
      SentRows(groups[..|groups| - 1], ok) + last[..Lead(last, ok)]
  }

  /** The row each group stopped at, if it did. */
  function RefusedRows(groups: seq<seq<Row>>, ok: Msg -> bool): seq<Row> {
    if groups == [] then []
    else
      var last := groups[|groups| - 1];
      var n := Lead(last, ok);
      RefusedRows(groups[..|groups| - 1], ok) + if n < |last| then [last[n]] else []
  }

  /** `r` stands at `j` in group `g`, and was sent from there. */
  predicate SentFrom(groups: seq<seq<Row>>, ok: Msg -> bool, r: Row, g: int, j: int) {
    0 <= g < |groups| && 0 <= j < Lead(groups[g], ok) && groups[g][j] == r
  }

  /** Group `g` stopped at `r`. */
  predicate RefusedFrom(groups: seq<seq<Row>>, ok: Msg -> bool, r: Row, g: int) {
    0 <= g < |groups| && Lead(groups[g], ok) < |groups[g]| && groups[g][Lead(groups[g], ok)] == r
  }

  lemma {:induction false} SentAt(groups: seq<seq<Row>>, ok: Msg -> bool, r: Row)
    ensures r in SentRows(groups, ok) <==> exists g, j :: SentFrom(groups, ok, r, g, j)
  {
    if groups != [] {
      var n := |groups| - 1;
      var front, last := groups[..n], groups[n];
      SentAt(front, ok, r);
      assert forall g, j :: SentFrom(front, ok, r, g, j) ==> SentFrom(groups, ok, r, g, j);
      assert forall g, j :: SentFrom(groups, ok, r, g, j) ==> g == n || SentFrom(front, ok, r, g, j);
      if j :| 0 <= j < Lead(last, ok) && last[j] == r {
        assert SentFrom(groups, ok, r, n, j) && last[..Lead(last, ok)][j] == r;
      } else {
        assert r !in last[..Lead(last, ok)];
      }
    }
  }

  lemma {:induction false} RefusedAt(groups: seq<seq<Row>>, ok: Msg -> bool, r: Row)
    ensures r in RefusedRows(groups, ok) <==> exists g :: RefusedFrom(groups, ok, r, g)
  {
    if groups != [] {
      var n := |groups| - 1;
      var front := groups[..n];
      RefusedAt(front, ok, r);
      assert forall g :: RefusedFrom(front, ok, r, g) ==> RefusedFrom(groups, ok, r, g);
      assert forall g :: RefusedFrom(groups, ok, r, g) ==> g == n || RefusedFrom(front, ok, r, g);
      assert RefusedFrom(groups, ok, r, n) || !RefusedFrom(groups, ok, r, n);
    }
  }

  /** Groups that share no row, and none of which has one twice. */
  ghost predicate Proper(groups: seq<seq<Row>>) {
    GroupsApart(groups) && forall g :: 0 <= g < |groups| ==> DistinctIds(groups[g])
  }

  lemma ProperFront(groups: seq<seq<Row>>)
    requires Proper(groups) && groups != []
    ensures Proper(groups[..|groups| - 1])
  {}

  lemma {:induction false} SentDistinct(groups: seq<seq<Row>>, ok: Msg -> bool)
    requires Proper(groups)
    ensures DistinctIds(SentRows(groups, ok)) && DistinctIds(RefusedRows(groups, ok))
  {
    if groups != [] {
      var n := |groups| - 1;
      var front, last := groups[..n], groups[n];
      ProperFront(groups);
      SentDistinct(front, ok);
      var sent, refused := SentRows(front, ok), RefusedRows(front, ok);
      forall i, b | 0 <= i < |sent| && 0 <= b < |last| ensures sent[i].msg.id != last[b].msg.id {
        SentAt(front, ok, sent[i]);
        var g, j :| SentFrom(front, ok, sent[i], g, j);
        assert groups[g][j] == sent[i];
      }
      forall i, b | 0 <= i < |refused| && 0 <= b < |last| ensures refused[i].msg.id != last[b].msg.id {
        RefusedAt(front, ok, refused[i]);
        var g :| RefusedFrom(front, ok, refused[i], g);
        assert groups[g][Lead(groups[g], ok)] == refused[i];
      }
    }
  }

  /** A row has one place in proper groups. */
  lemma OnePlace(groups: seq<seq<Row>>, g: nat, j: nat, h: nat, k: nat)
    requires Proper(groups) && g < |groups| && j < |groups[g]| && h < |groups| && k < |groups[h]|
    requires groups[g][j] == groups[h][k]
    ensures g == h && j == k
  {}

  /** The groups of a claim are proper, and what is in them was claimed. */
  lemma ClaimProper(table: seq<Row>, c: Config)
    requires WellFormed(table) && ValidConfig(c)
    ensures var claim := ClaimRows(table, c, c.batchSize);
            Proper(Groups(claim)) && forall g, r :: 0 <= g < |Groups(claim)| && r in Groups(claim)[g] ==> r in claim
  {
    var claim := ClaimRows(table, c, c.batchSize);
    GroupsOfClaimApart(table, c, c.batchSize);
    forall g | 0 <= g < |Groups(claim)|
      ensures DistinctIds(Groups(claim)[g]) && forall r :: r in Groups(claim)[g] ==> r in claim
    {
      GroupDistinct(claim, g);
      GroupIsUnit(claim, g);
    }
  }

  /** What an UPDATE for a refused row makes of it, spelled out. */
  predicate IsRefused(before: Row, after: Row, max: nat) {
    && after.msg == before.msg && after.attempts == before.attempts + 1
    && after.status == if before.attempts + 1 >= max then Failed else before.status
  }

  /** The row at `i` after the pass, by whether it was sent or refused. */
  lemma PassTells(table: seq<Row>, c: Config, ok: Msg -> bool, i: nat)
    requires WellFormed(table) && ValidConfig(c) && i < |table|
    ensures var groups := Groups(ClaimRows(table, c, c.batchSize));
            var after := Pass(table, c, ok)[i];
            if table[i] in SentRows(groups, ok) then after == Row(table[i].msg, Published, table[i].attempts)
            else if table[i] in RefusedRows(groups, ok) then IsRefused(table[i], after, c.maxAttempts)
            else after == table[i]
  {
    var groups := Groups(ClaimRows(table, c, c.batchSize));
    var g, j := PassAt(table, c, ok, i);
    ClaimProper(table, c);
    SentAt(groups, ok, table[i]);
    RefusedAt(groups, ok, table[i]);
    if table[i] in SentRows(groups, ok) {
      var h, k :| SentFrom(groups, ok, table[i], h, k);
      assert groups[h][k] in groups[h];
      OnePlace(groups, g, j, h, k);
    } else if table[i] in RefusedRows(groups, ok) {
      var h :| RefusedFrom(groups, ok, table[i], h);
      assert groups[h][Lead(groups[h], ok)] in groups[h];
      OnePlace(groups, g, j, h, Lead(groups[h], ok));
    } else if table[i] in ClaimRows(table, c, c.batchSize) {
      assert !SentFrom(groups, ok, table[i], g, j) && !RefusedFrom(groups, ok, table[i], g);
    }
  }

  /** Rows of one key stand in `seq` order. */
  ghost predicate InKeyOrder(rows: seq<Row>) {
    forall i, j :: 0 <= i < j < |rows| && rows[i].msg.key == rows[j].msg.key != "" ==> Before(rows[i].msg, rows[j].msg)
  }

  lemma KeyOrderAppend(sent: seq<Row>, more: seq<Row>)
    requires InKeyOrder(sent) && InKeyOrder(more)
    requires forall i, b :: 0 <= i < |sent| && 0 <= b < |more| && sent[i].msg.key == more[b].msg.key ==>
               more[b].msg.key == ""
    ensures InKeyOrder(sent + more)
  {}

  /** A group is in `seq` order. */
  lemma GroupInOrder(rows: seq<Row>, g: nat)
    requires Ascending(rows) && g < |Groups(rows)|
    ensures Ascending(Groups(rows)[g]) && InKeyOrder(Groups(rows)[g])
    ensures forall i, j :: 0 <= i < j < |Groups(rows)[g]| ==> Before(Groups(rows)[g][i].msg, Groups(rows)[g][j].msg)
  {
    var group := Groups(rows)[g];
    GroupIsUnit(rows, g);
    if group[0].msg.key != "" {
      FilterAscending((r: Row) => r.msg.key == group[0].msg.key, rows);
      forall i | 0 <= i < |group| ensures group[i].msg.key == group[0].msg.key {
        assert group[i] in group;
      }
    }
  }

  /** Groups in `seq` order that have no non-empty key in common. */
  ghost predicate Units(groups: seq<seq<Row>>) {
    && (forall g :: 0 <= g < |groups| ==> InKeyOrder(groups[g]))
    && forall g, j, h, k ::
         0 <= g < h < |groups| && 0 <= j < |groups[g]| && 0 <= k < |groups[h]| &&
             groups[g][j].msg.key == groups[h][k].msg.key ==>
         groups[h][k].msg.key == ""
  }

  lemma {:induction false} SentInKeyOrder(groups: seq<seq<Row>>, ok: Msg -> bool)
    requires Units(groups)
    ensures InKeyOrder(SentRows(groups, ok))
  {
    if groups != [] {
      var n := |groups| - 1;
      var front, last := groups[..n], groups[n];
      SentInKeyOrder(front, ok);
      forall i, b | 0 <= i < |SentRows(front, ok)| && 0 <= b < |last| &&
          SentRows(front, ok)[i].msg.key == last[b].msg.key
        ensures last[b].msg.key == ""
      {
        var r := SentRows(front, ok)[i];
        SentAt(front, ok, r);
        var g, j :| SentFrom(front, ok, r, g, j);
        assert groups[g][j] == r;
      }
      KeyOrderAppend(SentRows(front, ok), last[..Lead(last, ok)]);
    }
  }

  lemma GroupsAreUnits(rows: seq<Row>)
    requires DistinctIds(rows) && Ascending(rows)
    ensures Units(Groups(rows))
  {
    var groups: seq<seq<Row>> := Groups(rows);
    forall g | 0 <= g < |groups| ensures InKeyOrder(groups[g]) {
      GroupInOrder(rows, g);
    }
    forall g, j, h, k | 0 <= g < h < |groups| && 0 <= j < |groups[g]| && 0 <= k < |groups[h]| &&
        groups[g][j].msg.key == groups[h][k].msg.key
      ensures groups[h][k].msg.key == ""
    {
      KeysApart(rows, g, j, h, k);
    }
  }

  /** Two groups never have a non-empty key in common. */
  lemma KeysApart(rows: seq<Row>, g: nat, j: nat, h: nat, k: nat)
    requires DistinctIds(rows) && g < h < |Groups(rows)| && j < |Groups(rows)[g]| && k < |Groups(rows)[h]|
    ensures Groups(rows)[g][j].msg.key == Groups(rows)[h][k].msg.key ==> Groups(rows)[g][j].msg.key == ""
  {
    var a, b := Groups(rows)[g], Groups(rows)[h];
    GroupIsUnit(rows, g);
    GroupIsUnit(rows, h);
    assert a[j] in a && b[k] in b && a[0] in a && b[0] in b;
    if a[j].msg.key == b[k].msg.key != "" {
      assert a == b;
      GroupsDisjoint(rows, g, h, 0, 0);
    }
  }

  lemma BehindRefused(groups: seq<seq<Row>>, ok: Msg -> bool, g: nat, j: nat)
    requires g < |groups| && j < |groups[g]|
    requires forall a, b :: 0 <= a < b < |groups[g]| ==> Before(groups[g][a].msg, groups[g][b].msg)
    ensures var r := groups[g][j];
            r in SentRows(groups, ok) || r in RefusedRows(groups, ok) ||
            exists f :: f in RefusedRows(groups, ok) && Before(f.msg, r.msg)
  {
    var n := Lead(groups[g], ok);
    if j < n {
      SentAt(groups, ok, groups[g][j]);
      assert SentFrom(groups, ok, groups[g][j], g, j);
    } else {
      RefusedAt(groups, ok, groups[g][n]);
      assert RefusedFrom(groups, ok, groups[g][n], g);
    }
  }

  /** A claimed row that was neither sent nor refused stands behind a refused one of its key. */
  lemma HeldBack(table: seq<Row>, c: Config, ok: Msg -> bool, r: Row)
    requires WellFormed(table) && ValidConfig(c) && r in ClaimRows(table, c, c.batchSize)
    ensures var groups := Groups(ClaimRows(table, c, c.batchSize));
            r in SentRows(groups, ok) || r in RefusedRows(groups, ok) ||
            exists f :: f in RefusedRows(groups, ok) && Before(f.msg, r.msg)
  {
    var claim := ClaimRows(table, c, c.batchSize);
    GroupsCover(claim, r);
    var g :| 0 <= g < |Groups(claim)| && r in Groups(claim)[g];
    var j :| 0 <= j < |Groups(claim)[g]| && Groups(claim)[g][j] == r;
    ClaimIsGapFree(table, c, c.batchSize);
    GroupInOrder(claim, g);
    BehindRefused(Groups(claim), ok, g, j);
  }

  /** The pass of `table` under `c`, told by the rows `sent` and the rows `refused`. */
  ghost predicate Tells(table: seq<Row>, c: Config, after: seq<Row>, sent: seq<Row>, refused: seq<Row>)
    requires ValidConfig(c)
  {
    var claim := ClaimRows(table, c, c.batchSize);
    && DistinctIds(sent) && DistinctIds(refused) && InKeyOrder(sent)
    && (forall r :: r in sent ==> r in claim && r !in refused)
    && (forall r :: r in refused ==> r in claim)
    && (forall r :: r in claim ==>
          r in sent || r in refused || exists f :: f in refused && Before(f.msg, r.msg))
    && |after| == |table|
    && forall i :: 0 <= i < |table| ==>
         if table[i] in sent then after[i] == Row(table[i].msg, Published, table[i].attempts)
         else if table[i] in refused then IsRefused(table[i], after[i], c.maxAttempts)
         else after[i] == table[i]
  }

  lemma Apart(table: seq<Row>, c: Config, ok: Msg -> bool, r: Row)
    requires WellFormed(table) && ValidConfig(c)
    ensures var groups := Groups(ClaimRows(table, c, c.batchSize));
            !(r in SentRows(groups, ok) && r in RefusedRows(groups, ok))
    ensures var claim := ClaimRows(table, c, c.batchSize);
            r in SentRows(Groups(claim), ok) || r in RefusedRows(Groups(claim), ok) ==> r in claim
  {
    var claim := ClaimRows(table, c, c.batchSize);
    var groups := Groups(claim);
    ClaimProper(table, c);
    SentAt(groups, ok, r);
    RefusedAt(groups, ok, r);
    if r in SentRows(groups, ok) {
      var g, j :| SentFrom(groups, ok, r, g, j);
      assert groups[g][j] in groups[g];
    } else if r in RefusedRows(groups, ok) {
      var h :| RefusedFrom(groups, ok, r, h);
      assert groups[h][Lead(groups[h], ok)] in groups[h];
    }
  }

  /** What a pass does, without its groups: the acknowledged rows become published and nothing
      else about them changes, the refused ones have one more attempt and fail when those are
      used up, all others stay; sends of one key follow `seq`; and a claimed row is left
      alone only behind a refused one of its key. */
  lemma PassIsTold(table: seq<Row>, c: Config, ok: Msg -> bool)
    requires WellFormed(table) && ValidConfig(c)
    ensures var groups := Groups(ClaimRows(table, c, c.batchSize));
            Tells(table, c, Pass(table, c, ok), SentRows(groups, ok), RefusedRows(groups, ok))
  {
    var claim := ClaimRows(table, c, c.batchSize);
    var groups := Groups(claim);
    ClaimProper(table, c);
    SentDistinct(groups, ok);
    GroupsOfClaimApart(table, c, c.batchSize);
    ClaimIsGapFree(table, c, c.batchSize);
    GroupsAreUnits(claim);
    SentInKeyOrder(groups, ok);
    forall r ensures !(r in SentRows(groups, ok) && r in RefusedRows(groups, ok)) {
      Apart(table, c, ok, r);
    }
    forall r | r in SentRows(groups, ok) || r in RefusedRows(groups, ok) ensures r in claim {
      Apart(table, c, ok, r);
    }
    forall r | r in claim ensures r in SentRows(groups, ok) || r in RefusedRows(groups, ok) ||
        exists f :: f in RefusedRows(groups, ok) && Before(f.msg, r.msg) {
      HeldBack(table, c, ok, r);
    }
    forall i | 0 <= i < |table|
      ensures var after := Pass(table, c, ok)[i];
              if table[i] in SentRows(groups, ok) then after == Row(table[i].msg, Published, table[i].attempts)
              else if table[i] in RefusedRows(groups, ok) then IsRefused(table[i], after, c.maxAttempts)
              else after == table[i]
    {
      PassTells(table, c, ok, i);
    }
  }
}
