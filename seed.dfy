/** The demonstration data the salon starts with (constants.ts). */
module Seed {
  import opened Types

  const InitialClients: seq<Client> := [
    Client("1", "Maria Silva", "11988880000", Date(2023, 12, 15), "1990-12-20", Date(2022, 1, 10), 5, 1250.0, Cabelo),
    Client("2", "Ana Oliveira", "11977771111", Date(2024, 1, 5), "1985-01-12", Date(2023, 5, 20), 2, 400.0, Unhas),
    Client("3", "Juliana Costa", "11966662222", Date(2023, 11, 20), "1995-03-15", Date(2021, 11, 5), 8, 3200.0, Misto),
    Client("4", "Carla Souza", "11955553333", Date(2024, 1, 10), "1992-06-18", Date(2023, 12, 1), 1, 150.0, Estetica),
    Client("5", "Beatriz Lima", "11944445555", Date(2023, 10, 5), "1988-10-22", Date(2022, 8, 15), 3, 600.0, Cabelo)
  ]

  const InitialAppointments: seq<Appointment> := [
    Appointment("a1", "1", "Maria Silva", "11988880000", "2023-12-15", "Progressiva", 350.0, "Dezembro", true),
    Appointment("a2", "2", "Ana Oliveira", "11977771111", "2024-01-02", "Manicure", 50.0, "Janeiro", true),
    Appointment("a3", "3", "Juliana Costa", "11966662222", "2024-01-05", "Corte", 120.0, "Janeiro", true)
  ]

  /** The salon the application opens with. */
  const InitialSalon := SalonState("salon_123", "Espaço Beleza Real", InitialClients, InitialAppointments)
}
