/** The case fixture of src/data/mockData.ts that the violations page and the
    dashboard read. Dates are day numbers since 1970-01-01 (2025-09-15 is
    day 20346). */
module MockData {

  import opened IssueTable

  const MockIssues: seq<Issue> := [
    Issue("C001", "B08XYZ1234", "Wireless Ergonomic Mouse", "IP Complaint",
          AwaitingClientDocs, 20346, 175194, High,
          [LogEntry("2025-09-15 10:00", "Issue automatically detected."),
           LogEntry("2025-09-15 10:05", "Account Manager (Alice) assigned."),
           LogEntry("2025-09-15 11:30", "Request for supplier invoices sent to client.")]),
    Issue("C002", "B09ABC5678", "Organic Green Tea Bags (100ct)", "Product Condition Complaint",
          POASubmitted, 20343, 121681, Medium,
          [LogEntry("2025-09-12 14:20", "Issue detected."),
           LogEntry("2025-09-13 09:00", "Client provided FBA shipment details."),
           LogEntry("2025-09-13 16:45", "Plan of Action (POA) drafted and submitted.")]),
    Issue("C003", "B07DEF9012", "Professional Camera Tripod", "Listing Violation",
          Resolved, 20341, 15460, Low,
          [LogEntry("2025-09-10 08:15", "Listing suppressed."),
           LogEntry("2025-09-10 12:00", "Listing details updated."),
           LogEntry("2025-09-11 09:00", "Amazon reinstated the listing. Case resolved.")]),
    Issue("C004", "B08LMNOPQR", "Smart LED Light Bulb", "IP Complaint",
          New, 20347, 228079, High,
          [LogEntry("2025-09-16 14:00", "New IP complaint detected. Awaiting manager assignment.")]),
    Issue("C005", "B09STUVWXYZ", "Silicone Baking Mat Set", "Food & Safety Issue",
          Resolved, 20328, 0, Low, []),
    Issue("C006", "B07CBAFEDC", "Stainless Steel Water Bottle", "Product Condition Complaint",
          Resolved, 20325, 0, Low, [])
  ]
}
