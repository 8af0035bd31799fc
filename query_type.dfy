/** db_tools/database/query_type.py: the four SQL statement categories.
    Nothing in the tools consults them yet. */
module QueryTypes {

  /** Data query, data manipulation, data definition and data control
      statements. */
  datatype QueryType = DQL | DML | DDL | DCL {
    /** Only a data query returns rows. */
    predicate ReturnsData() { this == DQL }
  }

  /** The members in declaration order. */
  const Members: seq<QueryType> := [DQL, DML, DDL, DCL]

  /** The enumeration has exactly four distinct members. */
  lemma MembersAreAll(q: QueryType)
    ensures q in Members
    ensures |Members| == 4
    ensures forall i, j :: 0 <= i < j < |Members| ==> Members[i] != Members[j]
  {
  }

  /** `returns_data` holds of DQL and of no other member. */
  lemma ReturnsDataExactlyDQL(q: QueryType)
    ensures q.ReturnsData() <==> q == DQL
    ensures !DML.ReturnsData() && !DDL.ReturnsData() && !DCL.ReturnsData()
  {
  }

  /** Exactly one member returns data. */
  lemma OneMemberReturnsData()
    ensures |set q | q in Members && q.ReturnsData()| == 1
  {
    assert (set q | q in Members && q.ReturnsData()) == {DQL};
  }
}
