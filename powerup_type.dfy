/** entities/PowerUpType: the four pickup kinds. */
module PowerUpTypes {
  datatype PowerUpType = Rapid | Spread | Shield | Life
}
