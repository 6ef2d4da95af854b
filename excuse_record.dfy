/** The excuse record shared, through the 'excuse-history' storage key, by the generator and the history view. */
module ExcuseRecord {

  /**
   * One stored excuse: the seven fields written under 'excuse-history'. The id is
   * the clock value at generation; the ISO timestamp string is represented by the
   * milliseconds it denotes.
   */
  datatype StoredExcuse = StoredExcuse(
    id: int,
    text: string,
    category: string,
    urgency: int,
    believability: int,
    timestamp: int,
    isFavorite: bool)
}
