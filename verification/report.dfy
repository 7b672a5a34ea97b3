/** The counters that every transform of the ETL script returns alongside its
    table: rows read, rows removed as duplicates, and missing or invalid
    values handled (by dropping the row or by filling in a default). */
module Report {
  datatype Stats = Stats(processed: nat, duplicatesRemoved: nat, missingHandled: nat)
}
