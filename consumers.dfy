/**
 * The two other readers of the SQL status counts, reports/pdf_report.py and
 * dashboard/app.py, compute retention without the guard that etl/load.py,
 * the e-mail report and the Streamlit dashboard have: the division raises when
 * there are no 2004 customers. Here that demand is a precondition.
 */
module Consumers {
  import opened Numbers
  import opened Engine
  import opened Metrics
  import opened Transform
  import opened Load

  /** `round((active / (active + churned)) * 100, 1)`, defined only for a non-empty base. */
  function UnguardedRetention(active: nat, churned: nat): (r: real)
    requires active + churned > 0
    ensures 0.0 <= r <= 100.0
    ensures active == 0 ==> r == 0.0
    ensures churned == 0 ==> r == 100.0
  {
    RetentionBounds(active, active + churned);
    Round(active as real / (active + churned) as real * 100.0, 1)
  }

  /** Where the unguarded formula is defined it is the guarded one of etl/load.py. */
  lemma UnguardedAgrees(active: nat, churned: nat)
    requires active + churned > 0
    ensures UnguardedRetention(active, churned) == SheetRetention(active, churned)
  {
  }

  /**
   * On the SQL status counts the consumers can compute retention exactly when
   * some 2004 customer exists, and then show the figure the other readers show.
   */
  lemma ConsumerRetention(rows: seq<Row>)
    ensures var s := CustomerStatus(rows);
      (s.active + s.churned > 0 <==> CustomersIn(rows, 2004) != {})
    ensures var s := CustomerStatus(rows);
      s.active + s.churned > 0 ==>
        UnguardedRetention(s.active, s.churned)
        == Retention(|CustomersIn(rows, 2004) * CustomersIn(rows, 2005)|, |CustomersIn(rows, 2004)|)
  {
    SheetRetentionOfStatus(rows);
  }
}
