/** The shape of the records the process collector hands to the extractor, and
    what the extractor keeps of them. */
module ProcessMonitor {
  import opened PyDict
  import opened ProcessFeatures

  /** `p.info` of a process enumerated with the attributes `pid`, `name`, `exe`
      and `create_time`: a dictionary with exactly those keys (an attribute the
      collector may not read holds `None`). */
  function SampleRecord(pid: Value, name: Value, exe: Value, createTime: Value): (r: Record)
    ensures r.Keys == {"pid", "name", "exe", "create_time"}
    ensures r["pid"] == pid && r["name"] == name
    ensures r["exe"] == exe && r["create_time"] == createTime
  {
    map["pid" := pid, "name" := name, "exe" := exe, "create_time" := createTime]
  }

  /** Of a collected record the extractor keeps the pid and the name and drops
      the executable path and the creation time. */
  lemma ExtractSample(pid: Value, name: Value, exe: Value, createTime: Value)
    ensures FeatureOf(SampleRecord(pid, name, exe, createTime)) == map[PidKey := pid, NameKey := name]
  {
  }
}
