/** The database status feed (`useDatabaseStats`): its payload, its initial
    value and the derived schema-object total. */
module StatsFeed {
  import opened Base

  const Fallback := "Failed to fetch database stats"

  /** The status snapshot the backend returns. `totalSchemaObjects` is a total
      the payload may carry itself; the hook never trusts it. */
  datatype Stats = Stats(
    status: string,
    uptime: string,
    connections: int,
    cpu: int,
    memory: int,
    diskSpace: int,
    responseTime: int,
    tables: int,
    views: int,
    storedProcedures: int,
    functions: int,
    triggers: int,
    totalSchemaObjects: Option<int>)

  /** The stats shown before the first successful fetch. */
  function InitialStats(): (s: Stats)
    ensures s.status == "Unknown" && s.uptime == ""
    ensures s.connections == 0 && s.cpu == 0 && s.memory == 0 && s.diskSpace == 0 && s.responseTime == 0
    ensures s.tables == 0 && s.views == 0 && s.storedProcedures == 0 && s.functions == 0 && s.triggers == 0
    ensures s.totalSchemaObjects == None
  {
    Stats("Unknown", "", 0, 0, 0, 0, 0, 0, 0, 0, 0, 0, None)
  }

  function TotalSchemaObjects(s: Stats): int
  {
    s.tables + s.views + s.storedProcedures + s.functions + s.triggers
  }

  /** `{...stats, totalSchemaObjects}`: the stats the hook hands out, every
      field as stored except the total, which is always recomputed. */
  function Exposed(s: Stats): (r: Stats)
    ensures r.totalSchemaObjects == Some(s.tables + s.views + s.storedProcedures + s.functions + s.triggers)
    ensures r.(totalSchemaObjects := s.totalSchemaObjects) == s
  {
    s.(totalSchemaObjects := Some(TotalSchemaObjects(s)))
  }

  /** Before any fetch the exposed total is 0. */
  lemma InitialTotalIsZero()
    ensures Exposed(InitialStats()).totalSchemaObjects == Some(0)
  {
  }

  /** Whatever total a payload reports, exposing it again changes nothing:
      the exposed total depends only on the five counts. */
  lemma ExposedIgnoresReportedTotal(s: Stats, reported: Option<int>)
    ensures Exposed(s.(totalSchemaObjects := reported)) == Exposed(s)
  {
  }
}
